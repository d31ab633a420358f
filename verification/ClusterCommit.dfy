/** Commitment in the whole cluster. From the moment a machine wins a term in a
    clean run, and for as long as it leads, whatever it commits is held by a
    majority; provided its match indexes are warranted at the start, no machine
    crashes, and no request of its term is delivered once it is given up on. */
module ClusterCommit {
  import opened Basics
  import opened Commands
  import opened RaftNode
  import opened MergeExactness
  import opened Commit
  import opened LeaderLogic
  import opened Cluster
  import opened ClusterInvariant
  import opened ClusterSteps
  import opened ClusterSafety
  import R = Replication

  /** Calls left over from an earlier term do not count. */
  ghost function WireOf(s: Site, p: NodeId, t: int): R.Exchange {
    if p in s.calls && s.calls[p].term == t then R.Sent(s.calls[p]) else R.Quiet
  }

  /** What machine `n` sees of the cluster as the leader of term `t`. */
  ghost function Lead(c: Cluster, n: NodeId, t: int, start: int): R.Leadership
    requires n in c.sites
  {
    var s := c.sites[n];
    R.Leadership(t, start, s.node, ReplOf(s), map p | p in c.sites && p != n :: R.Peer(c.sites[p].node, WireOf(s, p, t)))
  }

  // ---- replies answer requests ----

  ghost predicate AnswersOk(net: set<Message>) {
    forall p, req, resp :: AppendReply(p, req, resp) in net ==>
      Append(p, req) in net && (resp.success ==> resp.term == req.term)
  }

  ghost predicate PendingOk(net: set<Message>, n: NodeId, s: Site) {
    forall req, t :: PendingAppend(req, t) in s.pending ==> Append(n, req) in net && t == req.term
  }

  ghost predicate CallsOk(members: set<NodeId>, net: set<Message>, n: NodeId, s: Site) {
    forall p | p in s.calls :: p in members && Append(p, s.calls[p]) in net && s.calls[p].leader == n
  }

  /** A reply, an acceptance waiting to be saved, and a call under way are about a
      request that was sent; and only a request of its own term is accepted. */
  ghost predicate RepliesOk(c: Cluster) {
    && AnswersOk(c.net)
    && forall n | n in c.sites :: PendingOk(c.net, n, c.sites[n]) && CallsOk(c.sites.Keys, c.net, n, c.sites[n])
  }

  lemma SiteKeepsReplies(c: Cluster, step: Step)
    requires RepliesOk(c) && Enabled(c, step) && c.sites[step.n].node.id == step.n
    ensures var (s1, sent) := SiteStep(c, step);
            AnswersOk(c.net + sent) && PendingOk(c.net + sent, step.n, s1) && CallsOk(c.sites.Keys, c.net + sent, step.n, s1)
  {
    hide DecideVote, OnAppendReply, Majority, ConcludeElection, FreshRepl, TermAt, Merge, Merged;
    var s := c.sites[step.n];
    assert PendingOk(c.net, step.n, s) && CallsOk(c.sites.Keys, c.net, step.n, s);
    if step.ReceiveAppend? { DecideAppendShape(s.node, step.areq); }
  }

  lemma StepKeepsReplies(c: Cluster, step: Step)
    requires RepliesOk(c) && Enabled(c, step) && c.sites[step.n].node.id == step.n
    ensures RepliesOk(Next(c, step))
  {
    hide SiteStep, AnswersOk;
    var c1 := Next(c, step);
    SiteKeepsReplies(c, step);
    assert c1.sites.Keys == c.sites.Keys;
    forall n | n in c1.sites ensures PendingOk(c1.net, n, c1.sites[n]) && CallsOk(c1.sites.Keys, c1.net, n, c1.sites[n]) {
      if n != step.n { assert PendingOk(c.net, n, c.sites[n]) && CallsOk(c.sites.Keys, c.net, n, c.sites[n]); }
    }
  }

  // ---- the leadership's invariant ----

  /** Machine `p` has accepted `req`, and has said so or is about to. */
  ghost predicate HasAcked(c: Cluster, p: NodeId, req: AppendRequest)
    requires p in c.sites
  {
    AppendReply(p, req, AppendResponse(req.term, true)) in c.net || PendingAppend(req, req.term) in c.sites[p].pending
  }

  ghost predicate AckOk(l: R.Leadership, x: R.Peer, req: AppendRequest) {
    && R.CarriesTail(l, req) && x.state.term >= l.term
    && (x.state.term == l.term ==> R.Holds(x.state, l.leader, R.EndOf(req)))
    && (x.wire.Sent? && !R.GoesAstray(x.wire.req) ==> R.EndOf(req) <= R.EndOf(x.wire.req))
  }

  ghost predicate AcksOk(c: Cluster, n: NodeId, l: R.Leadership, p: NodeId, x: R.Peer)
    requires p in c.sites
  {
    forall req | HasAcked(c, p, req) && req.leader == n && req.term == l.term :: AckOk(l, x, req)
  }

  ghost predicate Leading(c: Cluster, n: NodeId, t: int) {
    n in c.sites && c.sites[n].node.role == Leader && c.sites[n].node.term == t
  }

  ghost predicate LeadInv(c: Cluster, n: NodeId, t: int, start: int) {
    && Leading(c, n, t)
    && var l := Lead(c, n, t, start);
       && R.LeaderOk(l) && R.CommitOk(l)
       && forall p | p in l.peers :: R.PeerOk(l, p, l.peers[p]) && AcksOk(c, n, l, p, l.peers[p])
  }

  /** No crash, and the only requests of the leader's term that are delivered are
      those it is still waiting on. */
  ghost predicate Calm(c: Cluster, n: NodeId, t: int, step: Step)
    requires n in c.sites
  {
    && !step.Crash?
    && (step.ReceiveAppend? && step.areq.term == t ==>
          step.n in c.sites[n].calls && c.sites[n].calls[step.n] == step.areq)
  }

  // ---- steps of a peer ----

  lemma OneLeaderPerTerm(c: Cluster, h: History, a: NodeId, b: NodeId)
    requires a in c.sites && b in c.sites
    requires SiteOk(c.sites.Keys, a, c.sites[a], c.net, h) && SiteOk(c.sites.Keys, b, c.sites[b], c.net, h)
    ensures var (x, y) := (c.sites[a].node, c.sites[b].node);
            x.role == Leader && y.role == Leader && x.term == y.term ==> a == b
  {}

  /** Outside the leader's own requests, a peer in the leader's term leaves its
      log alone, and nobody's term falls. */
  lemma PeerStepShape(c: Cluster, h: History, n: NodeId, t: int, step: Step)
    requires Inv(c, h) && Leading(c, n, t) && Enabled(c, step) && step.n != n && !step.Crash?
    ensures var f, f1 := c.sites[step.n].node, SiteStep(c, step).0.node;
            && f1.term >= f.term
            && (f.term == t && f1.term == t && !(step.ReceiveAppend? && step.areq.term == t) ==> f1.log == f.log)
  {
    hide LastIndex, LastTerm, TermAt, Merge, Merged, Majority, BuildAppend, OnAppendReply, SiteOk, FreshRepl;
    var s := c.sites[step.n];
    assert SiteOk(c.sites.Keys, step.n, s, c.net, h) && SiteOk(c.sites.Keys, n, c.sites[n], c.net, h);
    OneLeaderPerTerm(c, h, n, step.n);
    if step.ReceiveAppendReply? { ReplyTouchesLittle(s.node, ReplOf(s), step.from, s.calls[step.from], step.aresp); }
  }

  /** Moving on without a request of the leader. */
  lemma MovesOn(l: R.Leadership, p: NodeId, x: R.Peer, f: NodeState)
    requires R.PeerOk(l, p, x) && !x.wire.Replied? && f.base == 0 && f.term >= x.state.term
    requires f.term <= l.term ==> R.Agrees(f, l.leader, l.term)
    requires x.state.term == l.term && f.term == l.term ==> f.log == x.state.log
    ensures R.PeerOk(l, p, x.(state := f))
    ensures forall req :: AckOk(l, x, req) ==> AckOk(l, x.(state := f), req)
  {}

  lemma AcceptedCall(l: R.Leadership, p: NodeId, x: R.Peer)
    requires R.LeaderOk(l) && R.PeerOk(l, p, x) && x.wire.Sent?
    requires DecideAppend(x.state, x.wire.req).resp.success
    ensures var (req, out) := (x.wire.req, DecideAppend(x.state, x.wire.req));
            && !R.GoesAstray(req) && R.CarriesTail(l, req)
            && out.state.log == l.leader.log[..R.EndOf(req)] && out.state.term == l.term
  {
    var f, req := x.state, x.wire.req;
    hide DecideAppend;
    DecideAppendShape(f, req);
    AcceptedMergeIsExact(f, req, l.leader.log);
    assert DecideAppend(f, req).state.log == l.leader.log[..R.EndOf(req)];
  }

  /** Handling the request the leader is waiting on. */
  lemma TakesCall(l: R.Leadership, p: NodeId, x: R.Peer)
    requires R.LeaderOk(l) && R.PeerOk(l, p, x) && x.wire.Sent?
    ensures var out := DecideAppend(x.state, x.wire.req);
            var x1 := x.(state := out.state);
            && R.PeerOk(l, p, x1)
            && (forall req :: AckOk(l, x, req) ==> AckOk(l, x1, req))
            && (out.resp.success ==> AckOk(l, x1, x.wire.req))
  {
    hide DecideAppend, R.Agrees;
    var f, req := x.state, x.wire.req;
    var out := DecideAppend(f, req);
    R.DeliverKeepsPeer(l, p, x);
    DecideAppendShape(f, req);
    if out.resp.success {
      AcceptedCall(l, p, x);
      assert out.state.log == l.leader.log[..R.EndOf(req)];
    }
  }

  lemma ChangedSucceeds(s: NodeState, req: AppendRequest)
    ensures DecideAppend(s, req).changed ==> DecideAppend(s, req).resp.success
  {
    hide Merge, Merged, TermAt;
  }

  /** Only handling a request makes a new acknowledgement. */
  lemma NewAcks(c: Cluster, step: Step, p: NodeId, req: AppendRequest)
    requires RepliesOk(c) && Enabled(c, step) && c.sites[step.n].node.id == step.n && p in c.sites
    requires HasAcked(Next(c, step), p, req)
    ensures HasAcked(c, p, req)
            || (step.n == p && step.ReceiveAppend? && step.areq == req && DecideAppend(c.sites[p].node, req).resp.success)
  {
    hide DecideVote, OnAppendReply, Majority, ConcludeElection, FreshRepl, TermAt, Merge, Merged, BuildAppend;
    var (s1, sent) := SiteStep(c, step);
    assert PendingOk(c.net, step.n, c.sites[step.n]);
    if step.ReceiveAppend? { ChangedSucceeds(c.sites[step.n].node, step.areq); }
    if AppendReply(p, req, AppendResponse(req.term, true)) in sent {
      assert step.ReceiveAppend? || step.AnswerAppend?;
    }
  }

  lemma PeerAgrees(c: Cluster, h: History, n: NodeId, t: int, p: NodeId)
    requires Inv(c, h) && Leading(c, n, t) && p in c.sites
    ensures R.Agrees(c.sites[p].node, c.sites[n].node, t) && c.sites[p].node.base == 0
  {
    assert SiteOk(c.sites.Keys, n, c.sites[n], c.net, h) && SiteOk(c.sites.Keys, p, c.sites[p], c.net, h);
    SourcedAgrees(h.logs, c.sites[p].node, c.sites[n].node);
  }

  /** Everything a step needs to be judged by. */
  ghost predicate Ready(c: Cluster, h: History, n: NodeId, t: int, start: int, step: Step) {
    && Inv(c, h) && RepliesOk(c) && LeadInv(c, n, t, start)
    && Enabled(c, step) && Calm(c, n, t, step) && Leading(Next(c, step), n, t)
    && step.n in c.sites && c.sites[step.n].node.id == step.n
  }

  lemma StateAfterAppend(c: Cluster, step: Step)
    requires Enabled(c, step) && step.ReceiveAppend?
    ensures SiteStep(c, step).0.node == DecideAppend(c.sites[step.n].node, step.areq).state
  {
    hide DecideAppend;
  }

  lemma PeerAfterPeerStep(c: Cluster, h: History, h1: History, n: NodeId, t: int, start: int, step: Step)
    requires Ready(c, h, n, t, start, step) && step.n != n && Inv(Next(c, step), h1)
    ensures var l, q := Lead(c, n, t, start), step.n;
            var x1 := l.peers[q].(state := Next(c, step).sites[q].node);
            R.PeerOk(l, q, x1) && AcksOk(Next(c, step), n, l, q, x1)
  {
    hide SiteStep, R.PeerOk, AckOk, Inv, RepliesOk, R.LeaderOk, R.CommitOk, R.Agrees, HasAcked;
    var l, q, c1 := Lead(c, n, t, start), step.n, Next(c, step);
    var x, f1 := l.peers[q], c1.sites[q].node;
    assert R.PeerOk(l, q, x) && AcksOk(c, n, l, q, x);
    if step.ReceiveAppend? && step.areq.term == t {
      assert x.wire == R.Sent(step.areq);
      TakesCall(l, q, x);
      StateAfterAppend(c, step);
    } else {
      PeerStepShape(c, h, n, t, step);
      PeerAgrees(c1, h1, n, t, q);
      MovesOn(l, q, x, f1);
    }
    forall req | HasAcked(c1, q, req) && req.leader == n && req.term == t ensures AckOk(l, x.(state := f1), req) {
      NewAcks(c, step, q, req);
    }
  }

  lemma AcksIgnorePeers(l: R.Leadership, l1: R.Leadership, x: R.Peer)
    requires l1 == l.(peers := l1.peers)
    ensures forall req :: AckOk(l, x, req) <==> AckOk(l1, x, req)
  {}

  lemma PeerStepKeeps(c: Cluster, h: History, h1: History, n: NodeId, t: int, start: int, step: Step)
    requires Ready(c, h, n, t, start, step) && step.n != n && Inv(Next(c, step), h1)
    ensures LeadInv(Next(c, step), n, t, start)
  {
    hide SiteStep, R.PeerOk, AckOk, Inv, RepliesOk, HasAcked, Enabled, Calm;
    var l, q, c1 := Lead(c, n, t, start), step.n, Next(c, step);
    var l1 := Lead(c1, n, t, start);
    PeerAfterPeerStep(c, h, h1, n, t, start, step);
    assert l1.peers == l.peers[q := l.peers[q].(state := c1.sites[q].node)];
    assert l1 == l.(peers := l1.peers);
    forall p | p in l1.peers ensures R.PeerOk(l1, p, l1.peers[p]) && AcksOk(c1, n, l1, p, l1.peers[p]) {
      R.OnlyPeersDiffer(l, l1, p, l1.peers[p]);
      AcksIgnorePeers(l, l1, l1.peers[p]);
      forall req | HasAcked(c1, p, req) && req.leader == n && req.term == t ensures AckOk(l1, l1.peers[p], req) {
        if p != q { NewAcks(c, step, p, req); }
      }
    }
  }

  // ---- steps of the leader ----

  lemma LeaderFacts(c: Cluster, h: History, n: NodeId)
    requires Inv(c, h) && n in c.sites && c.sites[n].node.role == Leader
    ensures var s := c.sites[n];
            && s.node.votedFor == Some(n) && s.campaign == Idle && s.node.base == 0
            && (forall p :: p in s.node.peers <==> p in c.sites && p != n)
  {
    assert SiteOk(c.sites.Keys, n, c.sites[n], c.net, h);
  }

  /** As long as it still leads, most steps leave the leader's node, bookkeeping
      and calls alone. */
  lemma LeaderStepShape(c: Cluster, h: History, n: NodeId, t: int, step: Step)
    requires Inv(c, h) && Leading(c, n, t) && Enabled(c, step) && step.n == n && Leading(Next(c, step), n, t)
    requires !step.Crash? && !step.Propose? && !step.Replicate? && !step.ReceiveAppendReply? && !step.CallFailed?
    ensures var (s, s1) := (c.sites[n], SiteStep(c, step).0);
            s1.node == s.node.(dirty := s1.node.dirty) && s1.repl == s.repl && s1.calls == s.calls
  {
    hide LastIndex, LastTerm, TermAt, Merge, Merged, Majority, BuildAppend, OnAppendReply, FreshRepl, Inv;
    LeaderFacts(c, h, n);
  }

  /** A leader step is judged peer by peer; acknowledgements are as before. */
  lemma LeaderStepKeeps(c: Cluster, h: History, n: NodeId, t: int, start: int, step: Step)
    requires Ready(c, h, n, t, start, step) && step.n == n
    requires var l1 := Lead(Next(c, step), n, t, start);
             && R.LeaderOk(l1) && R.CommitOk(l1)
             && forall p | p in l1.peers ::
                  && R.PeerOk(l1, p, l1.peers[p])
                  && forall req :: AckOk(Lead(c, n, t, start), Lead(c, n, t, start).peers[p], req) ==>
                       AckOk(l1, l1.peers[p], req)
    ensures LeadInv(Next(c, step), n, t, start)
  {
    hide SiteStep, R.PeerOk, AckOk, Inv, RepliesOk, HasAcked, Enabled, Calm, R.LeaderOk, R.CommitOk;
    var l, c1 := Lead(c, n, t, start), Next(c, step);
    var l1 := Lead(c1, n, t, start);
    forall p | p in l1.peers ensures AcksOk(c1, n, l1, p, l1.peers[p]) {
      assert AcksOk(c, n, l, p, l.peers[p]);
      forall req | HasAcked(c1, p, req) && req.leader == n && req.term == t ensures AckOk(l1, l1.peers[p], req) {
        NewAcks(c, step, p, req);
      }
    }
  }

  /** A new log for the leader that extends the old one. */
  lemma AcksGrow(l: R.Leadership, cmd: Command, x: R.Peer)
    ensures var l1 := l.(leader := AppendOwn(l.leader, cmd));
            forall req :: AckOk(l, x, req) ==> AckOk(l1, x, req)
  {
    var longer := AppendOwn(l.leader, cmd).log;
    assert forall n | 0 <= n <= |l.leader.log| :: longer[..n] == l.leader.log[..n];
    assert forall m, n | 0 <= m <= n <= |l.leader.log| :: longer[m..n] == l.leader.log[m..n];
  }

  /** Of the bookkeeping only the match indexes matter. */
  lemma RebookKeepsPeer(l: R.Leadership, p: NodeId, x: R.Peer, repl: Repl)
    requires R.PeerOk(l, p, x) && At(repl.matchIndex, p) == At(l.repl.matchIndex, p)
    ensures R.PeerOk(l.(repl := repl), p, x)
    ensures forall req :: AckOk(l, x, req) ==> AckOk(l.(repl := repl), x, req)
  {}

  lemma ProposeStepKeeps(c: Cluster, h: History, n: NodeId, t: int, start: int, step: Step)
    requires Ready(c, h, n, t, start, step) && step.n == n && step.Propose?
    ensures LeadInv(Next(c, step), n, t, start)
  {
    hide R.PeerOk, AckOk, Inv, RepliesOk, HasAcked, Calm, AcksOk;
    var l, c1 := Lead(c, n, t, start), Next(c, step);
    var l1 := Lead(c1, n, t, start);
    assert l1.peers == l.peers;
    var l2 := l.(leader := AppendOwn(l.leader, step.cmd));
    assert l1 == l2.(repl := l1.repl) && l1.repl.matchIndex == l.repl.matchIndex;
    R.CommitStays(l.leader, l.repl, l1.leader, l1.repl, l.leader.commitIndex);
    forall p | p in l1.peers
      ensures R.PeerOk(l1, p, l1.peers[p]) && forall req :: AckOk(l, l.peers[p], req) ==> AckOk(l1, l1.peers[p], req)
    {
      R.ProposeKeepsPeer(l, p, l.peers[p], step.cmd);
      AcksGrow(l, step.cmd, l.peers[p]);
      RebookKeepsPeer(l2, p, l.peers[p], l1.repl);
    }
    LeaderStepKeeps(c, h, n, t, start, step);
  }

  /** Bookkeeping changes that keep every match index, and a wire that is quiet or
      carries all of the leader's log. */
  lemma AcksRewired(l: R.Leadership, repl: Repl, x: R.Peer, wire: R.Exchange)
    requires wire.Quiet? || (wire.Sent? && (R.GoesAstray(wire.req) || R.EndOf(wire.req) == |l.leader.log|))
    ensures forall req :: AckOk(l, x, req) ==> AckOk(l.(repl := repl), x.(wire := wire), req)
  {}

  lemma CallCarries(c: Cluster, h: History, n: NodeId, q: NodeId)
    requires Inv(c, h) && n in c.sites && c.sites[n].node.role == Leader
    ensures var s := c.sites[n].node;
            var next := NextFor(ReplOf(c.sites[n]), q);
            && next >= 1 && next >= s.base + 1
            && var req := BuildAppend(s, next);
               req.term == s.term && (R.GoesAstray(req) || R.EndOf(req) == |s.log|)
  {
    LeaderFacts(c, h, n);
    R.BuiltCarriesTail(c.sites[n].node, NextFor(ReplOf(c.sites[n]), q));
  }

  lemma SameLeader(l: R.Leadership, l1: R.Leadership)
    requires R.LeaderOk(l) && l1.leader == l.leader && l1.term == l.term && l1.peers.Keys == l.peers.Keys
    ensures R.LeaderOk(l1)
  {}

  lemma ReplicateStepKeeps(c: Cluster, h: History, n: NodeId, t: int, start: int, step: Step)
    requires Ready(c, h, n, t, start, step) && step.n == n && step.Replicate?
    ensures LeadInv(Next(c, step), n, t, start)
  {
    hide R.PeerOk, AckOk, Inv, RepliesOk, HasAcked, Calm, AcksOk, BuildAppend, NextFor, R.LeaderOk, R.GoesAstray,
         R.EndOf;
    var l, c1, q := Lead(c, n, t, start), Next(c, step), step.to;
    var l1 := Lead(c1, n, t, start);
    var req := BuildAppend(l.leader, NextFor(l.repl, q));
    CallCarries(c, h, n, q);
    var x1 := l.peers[q].(wire := R.Sent(req));
    assert l1.peers == l.peers[q := x1];
    assert l1 == l.(repl := Launch(l.repl, q), peers := l1.peers);
    var l2 := l.(repl := Launch(l.repl, q));
    assert R.LeaderOk(l1) by { SameLeader(l, l1); }
    forall p | p in l1.peers
      ensures R.PeerOk(l1, p, l1.peers[p]) && forall r :: AckOk(l, l.peers[p], r) ==> AckOk(l1, l1.peers[p], r)
    {
      var x := l.peers[p];
      if p == q {
        R.SendKeepsPeer(l, p, x);
        AcksRewired(l, l2.repl, x, R.Sent(req));
      } else {
        RebookKeepsPeer(l, p, x, l2.repl);
      }
      R.OnlyPeersDiffer(l2, l1, p, l1.peers[p]);
      AcksIgnorePeers(l2, l1, l1.peers[p]);
    }
    LeaderStepKeeps(c, h, n, t, start, step);
  }

  lemma HangUp(l: R.Leadership, p: NodeId, x: R.Peer)
    requires R.PeerOk(l, p, x)
    ensures R.PeerOk(l, p, x.(wire := R.Quiet))
    ensures forall req :: AckOk(l, x, req) ==> AckOk(l, x.(wire := R.Quiet), req)
  {}

  lemma CallFailedStepKeeps(c: Cluster, h: History, n: NodeId, t: int, start: int, step: Step)
    requires Ready(c, h, n, t, start, step) && step.n == n && step.CallFailed?
    ensures LeadInv(Next(c, step), n, t, start)
  {
    hide R.PeerOk, AckOk, Inv, RepliesOk, HasAcked, Calm, AcksOk, R.LeaderOk;
    var l, c1, q := Lead(c, n, t, start), Next(c, step), step.to;
    var l1 := Lead(c1, n, t, start);
    var l2 := l.(repl := Land(l.repl, q));
    assert l1.leader == l.leader && l1.repl == l2.repl && l1 == l2.(peers := l1.peers);
    assert R.LeaderOk(l1) by { SameLeader(l, l1); }
    forall p | p in l1.peers
      ensures R.PeerOk(l1, p, l1.peers[p]) && forall r :: AckOk(l, l.peers[p], r) ==> AckOk(l1, l1.peers[p], r)
    {
      RebookKeepsPeer(l, p, l.peers[p], l2.repl);
      HangUp(l2, p, l.peers[p]);
      assert l1.peers[p] == l.peers[p] || l1.peers[p] == l.peers[p].(wire := R.Quiet);
      R.OnlyPeersDiffer(l2, l1, p, l1.peers[p]);
      AcksIgnorePeers(l2, l1, l1.peers[p]);
    }
    LeaderStepKeeps(c, h, n, t, start, step);
  }

  lemma CallsGoToPeers(c: Cluster, h: History, n: NodeId, q: NodeId)
    requires Inv(c, h) && RepliesOk(c) && n in c.sites && q in c.sites[n].calls
    ensures q != n && q in c.sites
  {
    hide SitesOk, HistoryOk, RequestOk;
    var m := Append(q, c.sites[n].calls[q]);
    assert CallsOk(c.sites.Keys, c.net, n, c.sites[n]);
    assert m in c.net && MsgOk(c.sites.Keys, m, h);
  }

  /** What a reply to machine `q` can do to the bookkeeping of the leader. */
  lemma ReplyBooks(c: Cluster, h: History, n: NodeId, t: int, start: int, step: Step)
    requires Ready(c, h, n, t, start, step) && step.n == n && step.ReceiveAppendReply?
    ensures step.from in c.sites && step.from != n && step.from in c.sites[n].calls
    ensures var (s, q) := (c.sites[n], step.from);
            var out := OnAppendReply(s.node, ReplOf(s), q, s.calls[q], step.aresp);
            var l := Lead(c, n, t, start);
            && out.state == s.node.(commitIndex := out.state.commitIndex)
            && (|| out.repl == Land(l.repl, q)
                || out.repl == Rewind(Land(l.repl, q), q)
                || (AckOk(l, l.peers[q], s.calls[q]) && out.repl == Acknowledge(Land(l.repl, q), q, R.EndOf(s.calls[q]))))
  {
    hide OnAppendReply, R.PeerOk, AckOk, Inv, MaybeCommit, Acknowledge, Rewind;
    var s, q := c.sites[n], step.from;
    var l := Lead(c, n, t, start);
    CallsGoToPeers(c, h, n, q);
    assert CallsOk(c.sites.Keys, c.net, n, s);
    ReplyShape(s.node, ReplOf(s), q, s.calls[q], step.aresp);
    ReplyTouchesLittle(s.node, ReplOf(s), q, s.calls[q], step.aresp);
    if step.aresp == AppendResponse(t, true) {
      assert HasAcked(c, q, s.calls[q]) && s.calls[q].leader == n && s.calls[q].term == t;
      assert AcksOk(c, n, l, q, l.peers[q]);
    }
  }

  lemma AcksRebooked(l: R.Leadership, repl: Repl, x: R.Peer)
    ensures forall r :: AckOk(l, x, r) ==> AckOk(l.(repl := repl), x, r)
  {}

  /** A reply judged at peer `p`. */
  lemma ReplyKeepsPeer(l: R.Leadership, p: NodeId, x: R.Peer, q: NodeId, y: R.Peer, req: AppendRequest, repl: Repl)
    requires R.LeaderOk(l) && R.PeerOk(l, p, x) && (p == q ==> x == y)
    requires || repl == Land(l.repl, q)
             || repl == Rewind(Land(l.repl, q), q)
             || (AckOk(l, y, req) && repl == Acknowledge(Land(l.repl, q), q, R.EndOf(req)))
    ensures var x1 := if p == q then x.(wire := R.Quiet) else x;
            && R.PeerOk(l.(repl := repl), p, x1)
            && forall r :: AckOk(l, x, r) ==> AckOk(l.(repl := repl), x1, r)
  {
    hide R.PeerOk, R.LeaderOk;
    var x1 := if p == q then x.(wire := R.Quiet) else x;
    HangUp(l, p, x);
    if repl == Rewind(Land(l.repl, q), q) {
      R.RewindKeepsPeer(l, p, x1, q);
    } else if repl == Land(l.repl, q) {
      RebookKeepsPeer(l, p, x1, repl);
    } else {
      R.AckKeepsPeer(l, p, x1, q, R.EndOf(req));
    }
    AcksRebooked(l, repl, x1);
  }

  lemma AcksIgnoreRest(l: R.Leadership, l1: R.Leadership, x: R.Peer)
    requires l1.leader.log == l.leader.log && l1.term == l.term
    ensures forall req :: AckOk(l, x, req) <==> AckOk(l1, x, req)
  {}

  lemma ReplyCommits(l: R.Leadership, l1: R.Leadership, q: NodeId, req: AppendRequest, resp: AppendResponse)
    requires R.LeaderOk(l) && R.CommitOk(l) && l.leader.role == Leader
    requires var out := OnAppendReply(l.leader, l.repl, q, req, resp);
             && out.state == l.leader.(commitIndex := out.state.commitIndex)
             && l1 == l.(leader := out.state, repl := out.repl, peers := l1.peers) && l1.peers.Keys == l.peers.Keys
    ensures R.LeaderOk(l1) && R.CommitOk(l1)
  {
    hide OnAppendReply, Reached, Marks;
    R.ReplyMovesMatchesForward(l.leader, l.repl, q, req, resp);
    ReplyShape(l.leader, l.repl, q, req, resp);
    R.CommitStays(l.leader, l.repl, l1.leader, l1.repl, l.leader.commitIndex);
  }

  lemma ReplyStepKeeps(c: Cluster, h: History, n: NodeId, t: int, start: int, step: Step)
    requires Ready(c, h, n, t, start, step) && step.n == n && step.ReceiveAppendReply?
    ensures LeadInv(Next(c, step), n, t, start)
  {
    hide R.PeerOk, AckOk, Inv, RepliesOk, HasAcked, Calm, AcksOk, R.LeaderOk, OnAppendReply, Acknowledge, Rewind,
         R.CommitOk, R.EndOf;
    var l, c1, q, s := Lead(c, n, t, start), Next(c, step), step.from, c.sites[n];
    ReplyBooks(c, h, n, t, start, step);
    var out := OnAppendReply(s.node, l.repl, q, s.calls[q], step.aresp);
    var l1 := Lead(c1, n, t, start);
    var l2 := l.(repl := out.repl);
    assert l1 == l2.(leader := out.state, peers := l1.peers);
    ReplyCommits(l, l1, q, s.calls[q], step.aresp);
    forall p | p in l1.peers
      ensures R.PeerOk(l1, p, l1.peers[p]) && forall r :: AckOk(l, l.peers[p], r) ==> AckOk(l1, l1.peers[p], r)
    {
      ReplyKeepsPeer(l, p, l.peers[p], q, l.peers[q], s.calls[q], out.repl);
      R.OnlyTheLogMatters(l2, out.state, p, l1.peers[p]);
      R.OnlyPeersDiffer(l2.(leader := out.state), l1, p, l1.peers[p]);
      AcksIgnoreRest(l2, l1, l1.peers[p]);
    }
    LeaderStepKeeps(c, h, n, t, start, step);
  }

  // ---- whole leaderships ----

  lemma QuietStepKeeps(c: Cluster, h: History, n: NodeId, t: int, start: int, step: Step)
    requires Ready(c, h, n, t, start, step) && step.n == n
    requires !step.Propose? && !step.Replicate? && !step.ReceiveAppendReply? && !step.CallFailed?
    ensures LeadInv(Next(c, step), n, t, start)
  {
    hide R.PeerOk, AckOk, Inv, RepliesOk, HasAcked, AcksOk, SiteStep, Enabled;
    var l, c1 := Lead(c, n, t, start), Next(c, step);
    var l1 := Lead(c1, n, t, start);
    LeaderStepShape(c, h, n, t, step);
    assert l1 == l.(leader := l1.leader);
    forall p | p in l1.peers
      ensures R.PeerOk(l1, p, l1.peers[p]) && forall r :: AckOk(l, l.peers[p], r) ==> AckOk(l1, l1.peers[p], r)
    {
      R.OnlyTheLogMatters(l, l1.leader, p, l.peers[p]);
      AcksIgnoreRest(l, l1, l.peers[p]);
    }
    LeaderStepKeeps(c, h, n, t, start, step);
  }

  lemma StepKeepsLeadInv(c: Cluster, h: History, h1: History, n: NodeId, t: int, start: int, step: Step)
    requires Ready(c, h, n, t, start, step) && Inv(Next(c, step), h1)
    ensures LeadInv(Next(c, step), n, t, start)
  {
    hide Ready, Inv, Next, LeadInv;
    if step.n != n {
      PeerStepKeeps(c, h, h1, n, t, start, step);
    } else if step.Propose? {
      ProposeStepKeeps(c, h, n, t, start, step);
    } else if step.Replicate? {
      ReplicateStepKeeps(c, h, n, t, start, step);
    } else if step.ReceiveAppendReply? {
      ReplyStepKeeps(c, h, n, t, start, step);
    } else if step.CallFailed? {
      CallFailedStepKeeps(c, h, n, t, start, step);
    } else {
      QuietStepKeeps(c, h, n, t, start, step);
    }
  }

  /** A clean and calm run throughout which `n` leads term `t`. */
  ghost predicate IsTenure(c: Cluster, n: NodeId, t: int, steps: seq<Step>)
    decreases |steps|
  {
    Leading(c, n, t)
    && (steps == []
        || (&& Enabled(c, steps[0]) && Clean(c, steps[0]) && Calm(c, n, t, steps[0])
            && IsTenure(Next(c, steps[0]), n, t, steps[1..])))
  }

  lemma Names(c: Cluster, h: History, step: Step)
    requires Inv(c, h) && Enabled(c, step)
    ensures step.n in c.sites && c.sites[step.n].node.id == step.n
  {
    hide SiteStep;
    assert SiteOk(c.sites.Keys, step.n, c.sites[step.n], c.net, h);
  }

  lemma {:induction false} TenureKeepsLeadInv(c: Cluster, h: History, n: NodeId, t: int, start: int, steps: seq<Step>)
    returns (h2: History)
    requires Inv(c, h) && RepliesOk(c) && LeadInv(c, n, t, start) && IsTenure(c, n, t, steps)
    ensures IsRun(c, steps) && LeadInv(After(c, steps), n, t, start) && Inv(After(c, steps), h2)
    decreases |steps|
  {
    hide Inv, RepliesOk, LeadInv, Next, Enabled, Clean, Calm, Record;
    if steps == [] {
      h2 := h;
    } else {
      var step := steps[0];
      var h1 := Record(c, h, step);
      StepKeepsInv(c, h, step);
      Names(c, h, step);
      assert Leading(Next(c, step), n, t);
      assert Ready(c, h, n, t, start, step);
      StepKeepsReplies(c, step);
      StepKeepsLeadInv(c, h, h1, n, t, start, step);
      h2 := TenureKeepsLeadInv(Next(c, step), h1, n, t, start, steps[1..]);
    }
  }

  // ---- the beginning ----

  ghost predicate BooksOk(s: Site) {
    s.node.commitIndex >= 0 && s.node.base == 0 && forall p :: At(ReplOf(s).matchIndex, p) >= 0
  }

  lemma AppendKeepsCommit(s: NodeState, req: AppendRequest)
    requires s.commitIndex >= 0 && s.base == 0
    ensures DecideAppend(s, req).state.commitIndex >= 0 && DecideAppend(s, req).state.base == 0
  {
    hide Merge, Merged, TermAt;
  }

  lemma ReplyKeepsBooks(s: NodeState, r: Repl, q: NodeId, req: AppendRequest, resp: AppendResponse)
    requires s.commitIndex >= 0 && forall p :: At(r.matchIndex, p) >= 0
    ensures var out := OnAppendReply(s, r, q, req, resp);
            out.state.commitIndex >= 0 && forall p :: At(out.repl.matchIndex, p) >= 0
  {
    hide Threshold, Matches, EntryAt;
    R.ReplyMovesMatchesForward(s, r, q, req, resp);
  }

  lemma FreshMarks(s: NodeState)
    ensures forall p :: At(FreshRepl(s).matchIndex, p) == 0
  {}

  lemma StepKeepsBooks(c: Cluster, step: Step)
    requires Enabled(c, step) && BooksOk(c.sites[step.n]) && c.sites[step.n].disk.base == 0
    ensures BooksOk(SiteStep(c, step).0)
  {
    hide LastIndex, LastTerm, Majority, BuildAppend, OnAppendReply, DecideAppend, At;
    var s := c.sites[step.n];
    if step.ReceiveAppend? { AppendKeepsCommit(s.node, step.areq); }
    if step.ReceiveAppendReply? {
      ReplyKeepsBooks(s.node, ReplOf(s), step.from, s.calls[step.from], step.aresp);
      ReplyTouchesLittle(s.node, ReplOf(s), step.from, s.calls[step.from], step.aresp);
    }
    var s1 := SiteStep(c, step).0;
    FreshMarks(s1.node);
    assert s1.repl.Some? && !step.ReceiveAppendReply? ==> s1.repl.value.matchIndex == ReplOf(s).matchIndex;
    assert s1.repl == None ==> ReplOf(s1) == FreshRepl(s1.node);
  }

  lemma BlankBase(c: Cluster, h: History, n: NodeId)
    requires Inv(c, h) && n in c.sites
    ensures c.sites[n].disk.base == 0
  {
    assert SiteOk(c.sites.Keys, n, c.sites[n], c.net, h);
  }

  /** What every clean run keeps besides the invariant of the cluster. */
  lemma {:induction false} RunKeepsReplies(c: Cluster, h: History, steps: seq<Step>) returns (h1: History)
    requires Inv(c, h) && RepliesOk(c) && IsCleanRun(c, steps) && forall n | n in c.sites :: BooksOk(c.sites[n])
    ensures IsRun(c, steps)
    ensures var r := After(c, steps); Inv(r, h1) && RepliesOk(r) && forall n | n in r.sites :: BooksOk(r.sites[n])
    decreases |steps|
  {
    hide Inv, RepliesOk, SiteStep, Enabled, Clean, Record, BooksOk;
    if steps == [] {
      h1 := h;
    } else {
      var step := steps[0];
      StepKeepsInv(c, h, step);
      Names(c, h, step);
      BlankBase(c, h, step.n);
      StepKeepsReplies(c, step);
      StepKeepsBooks(c, step);
      h1 := RunKeepsReplies(Next(c, step), Record(c, h, step), steps[1..]);
    }
  }

  // ---- distinct peers ----

  lemma {:induction false} ElementsBounded(s: seq<NodeId>, all: set<NodeId>)
    requires forall x :: x in all ==> x in s
    ensures |all| <= |s|
  {
    if s == [] {
      assert all == {};
    } else {
      assert s == [s[0]] + s[1..];
      ElementsBounded(s[1..], all - {s[0]});
    }
  }

  lemma {:induction false} CountedOnce(s: seq<NodeId>, all: set<NodeId>)
    requires |s| == |all| && forall x :: x in all ==> x in s
    ensures Distinct(s)
  {
    if s == [] {
    } else {
      assert s == [s[0]] + s[1..];
      if s[0] !in all || s[0] in s[1..] { ElementsBounded(s[1..], all); }
      CountedOnce(s[1..], all - {s[0]});
      forall i, j | 0 <= i < j < |s| ensures s[i] != s[j] {
        if i > 0 { assert s[1..][i - 1] != s[1..][j - 1]; }
      }
    }
  }

  lemma PeersAreDistinct(members: set<NodeId>, n: NodeId, peers: seq<NodeId>)
    requires PeersOf(members, n, peers) && n in members
    ensures Distinct(peers) && n !in peers
  {
    assert |members - {n}| == |members| - 1;
    CountedOnce(peers, members - {n});
  }

  // ---- the moment of victory ----

  /** Before it wins a term, a machine has sent no request in it. */
  lemma NothingSentYet(c: Cluster, h: History, n: NodeId, p: NodeId, req: AppendRequest)
    requires Inv(c, h) && Winning(c, n) && Append(p, req) in c.net && req.leader == n
    ensures req.term != c.sites[n].node.term
  {
    WinShape(c, h, n);
    assert SiteOk(c.sites.Keys, n, c.sites[n], c.net, h);
    assert MsgOk(c.sites.Keys, Append(p, req), h);
  }

  lemma LeaderStartsOk(c: Cluster, h: History, n: NodeId, t: int, start: int)
    requires Inv(c, h) && Leading(c, n, t) && c.sites[n].node.commitIndex == start
    ensures R.LeaderOk(Lead(c, n, t, start)) && R.CommitOk(Lead(c, n, t, start))
  {
    assert SiteOk(c.sites.Keys, n, c.sites[n], c.net, h);
    PeersAreDistinct(c.sites.Keys, n, c.sites[n].node.peers);
  }

  lemma PeerStartsOk(c: Cluster, h: History, n: NodeId, t: int, start: int, p: NodeId)
    requires Inv(c, h) && Leading(c, n, t) && BooksOk(c.sites[n]) && p in c.sites && p != n
    requires R.Warranted(Lead(c, n, t, start), p) && WireOf(c.sites[n], p, t) == R.Quiet
    ensures R.PeerOk(Lead(c, n, t, start), p, Lead(c, n, t, start).peers[p])
  {
    hide Inv, R.Agrees;
    PeerAgrees(c, h, n, t, p);
  }

  lemma CrownKeepsBooks(s: Site)
    requires BooksOk(s)
    ensures BooksOk(s.(node := BecomeLeader(s.node), campaign := Idle))
  {
    FreshMarks(BecomeLeader(s.node));
    assert ReplOf(s.(node := BecomeLeader(s.node), campaign := Idle)).matchIndex == ReplOf(s).matchIndex;
  }

  lemma NoCallYet(c: Cluster, h: History, n: NodeId, p: NodeId)
    requires Inv(c, h) && RepliesOk(c) && Winning(c, n)
    ensures WireOf(c.sites[n], p, c.sites[n].node.term) == R.Quiet
  {
    hide Inv;
    if p in c.sites[n].calls {
      assert CallsOk(c.sites.Keys, c.net, n, c.sites[n]);
      NothingSentYet(c, h, n, p, c.sites[n].calls[p]);
    }
  }

  lemma NoAckYet(c: Cluster, h: History, n: NodeId, p: NodeId, req: AppendRequest)
    requires Inv(c, h) && RepliesOk(c) && Winning(c, n) && p in c.sites && HasAcked(c, p, req) && req.leader == n
    ensures req.term != c.sites[n].node.term
  {
    hide Inv;
    assert PendingOk(c.net, p, c.sites[p]) && AnswersOk(c.net);
    NothingSentYet(c, h, n, p, req);
  }

  lemma VictoryStartsTenure(c: Cluster, h: History, n: NodeId)
    requires Inv(c, h) && RepliesOk(c) && Winning(c, n) && BooksOk(c.sites[n])
    requires var s := c.sites[n].node;
             Enabled(c, FinishElection(n)) && R.AllWarranted(Lead(Next(c, FinishElection(n)), n, s.term, s.commitIndex))
    ensures LeadInv(Next(c, FinishElection(n)), n, c.sites[n].node.term, c.sites[n].node.commitIndex)
  {
    hide Inv, RepliesOk, R.PeerOk, R.LeaderOk, R.CommitOk, Next, Record, R.Warranted;
    var step, t, start := FinishElection(n), c.sites[n].node.term, c.sites[n].node.commitIndex;
    StepKeepsInv(c, h, step);
    WinShape(c, h, n);
    var c1, h1 := Next(c, step), Record(c, h, step);
    LeaderStartsOk(c1, h1, n, t, start);
    CrownKeepsBooks(c.sites[n]);
    var l := Lead(c1, n, t, start);
    assert forall q | q in c1.sites :: q != n ==> c1.sites[q] == c.sites[q];
    forall p | p in l.peers ensures R.PeerOk(l, p, l.peers[p]) && AcksOk(c1, n, l, p, l.peers[p]) {
      NoCallYet(c, h, n, p);
      PeerStartsOk(c1, h1, n, t, start, p);
      forall req | HasAcked(c, p, req) && req.leader == n ensures req.term != t {
        NoAckYet(c, h, n, p, req);
      }
      assert forall req :: HasAcked(c1, p, req) ==> HasAcked(c, p, req);
    }
  }

  lemma NonNegative(s: Site)
    requires BooksOk(s)
    ensures s.node.commitIndex >= 0
  {}

  lemma InitialReplies(c: Cluster)
    requires Initial(c)
    ensures Inv(c, NO_HISTORY) && RepliesOk(c) && forall n | n in c.sites :: BooksOk(c.sites[n])
  {
    InitialInv(c);
    hide Inv;
    forall n | n in c.sites ensures BooksOk(c.sites[n]) { FreshMarks(c.sites[n].node); }
  }

  lemma ClusterSize(c: Cluster, h: History, n: NodeId)
    requires Inv(c, h) && n in c.sites
    ensures var s := c.sites[n].node; s.id == n && |s.peers| == |c.sites| - 1 && s.base == 0
  {
    assert SiteOk(c.sites.Keys, n, c.sites[n], c.net, h);
    assert |c.sites| == |c.sites.Keys|;
  }

  lemma HoldsItsOwn(s: NodeState)
    requires s.base == 0 && 0 <= s.commitIndex <= LastIndex(s)
    ensures R.Holds(s, s, s.commitIndex)
  {}

  /** The leader and the peers whose match index has reached its commit index. */
  lemma HoldersOf(c: Cluster, h: History, n: NodeId, t: int, start: int) returns (quorum: set<NodeId>)
    requires Inv(c, h) && LeadInv(c, n, t, start) && start >= 0
    ensures n in c.sites
    ensures c.sites[n].node.commitIndex > start ==>
              && n in quorum && quorum <= c.sites.Keys && 2 * |quorum| > |c.sites|
              && forall p | p in quorum ::
                   && c.sites[p].node.term >= t
                   && (c.sites[p].node.term == t ==> R.Holds(c.sites[p].node, c.sites[n].node, c.sites[n].node.commitIndex))
  {
    hide Inv, R.PeerOk, R.LeaderOk, R.CommitOk, AcksOk, R.Holds;
    var l := Lead(c, n, t, start);
    ClusterSize(c, h, n);
    assert R.Inv(l);
    quorum := R.Holders(l);
    if l.leader.commitIndex > start { HoldsItsOwn(l.leader); }
  }

  /** A machine that has led nothing before starts with warranted match indexes. */
  lemma FirstTenureIsWarranted(c: Cluster, n: NodeId, t: int, start: int)
    requires n in c.sites && c.sites[n].repl == None
    ensures R.AllWarranted(Lead(c, n, t, start))
  {
    FreshMarks(c.sites[n].node);
  }

  /** Commitment in the cluster: a machine wins a term in a clean run, with its
      match indexes warranted (as they are when it has led nothing before). At
      every later point of its tenure, whatever it has committed since is held,
      with the same prefix, by a majority of the cluster, not counting against it
      those that have moved on to a later term. */
  lemma ClusterCommitsWhatAMajorityHolds(c: Cluster, before: seq<Step>, k: Cluster, n: NodeId, steps: seq<Step>)
    returns (quorum: set<NodeId>)
    requires Initial(c) && IsCleanRun(c, before) && IsRun(c, before) && After(c, before) == k
    requires Winning(k, n) && Enabled(k, FinishElection(n))
    requires var (t, start) := (k.sites[n].node.term, k.sites[n].node.commitIndex);
             && R.AllWarranted(Lead(Next(k, FinishElection(n)), n, t, start))
             && IsTenure(Next(k, FinishElection(n)), n, t, steps)
    ensures IsRun(Next(k, FinishElection(n)), steps)
    ensures var (r, t) := (After(Next(k, FinishElection(n)), steps).sites, k.sites[n].node.term);
            && n in r
            && (r[n].node.commitIndex > k.sites[n].node.commitIndex ==>
                  && n in quorum && quorum <= r.Keys && 2 * |quorum| > |r|
                  && forall p | p in quorum ::
                       && r[p].node.term >= t
                       && (r[p].node.term == t ==> R.Holds(r[p].node, r[n].node, r[n].node.commitIndex)))
  {
    hide Inv, RepliesOk, LeadInv, Next, Enabled, IsTenure, R.AllWarranted, Lead, IsCleanRun, BooksOk, Record, Initial;
    InitialReplies(c);
    var h := RunKeepsReplies(c, NO_HISTORY, before);
    var t, start, k1 := k.sites[n].node.term, k.sites[n].node.commitIndex, Next(k, FinishElection(n));
    VictoryStartsTenure(k, h, n);
    StepKeepsInv(k, h, FinishElection(n));
    Names(k, h, FinishElection(n));
    StepKeepsReplies(k, FinishElection(n));
    var h1 := Record(k, h, FinishElection(n));
    var h2 := TenureKeepsLeadInv(k1, h1, n, t, start, steps);
    assert start >= 0 by { assert BooksOk(k.sites[n]); NonNegative(k.sites[n]); }
    quorum := HoldersOf(After(k1, steps), h2, n, t, start);
  }
}
