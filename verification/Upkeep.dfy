/** What a leader keeps through every orderly step: its calls carry its log, its
    match indexes are backed by acknowledgements, and no follower of its term has
    committed beyond what it is about to be sent. */
module Upkeep {
  import opened Basics
  import opened Commands
  import opened RaftNode
  import opened MergeExactness
  import opened Commit
  import opened LeaderLogic
  import opened Cluster
  import opened ClusterInvariant
  import opened ClusterSteps
  import opened ClusterSafety
  import opened ClusterCommit
  import opened Chronicle
  import opened Completeness
  import opened Stewardship
  import R = Replication

  // ---- what a majority vouches for stays vouched for ----

  lemma SaidStays(c: Cluster, h: History, step: Step, t: int, k: int, q: set<NodeId>)
    requires Inv(c, h) && Enabled(c, step) && Mark(h, t, k) && SaidBy(c, h, t, k, q)
    ensures SaidBy(Next(c, step), Record(c, h, step), t, k, q)
  {
    hide Inv, Record, SiteStep, Enabled, Mark;
    var c1, h1 := Next(c, step), Record(c, h, step);
    RecordContinues(c, h, step);
    MarkStays(h, h1, t, k);
    assert step.n in c.sites by { Names(c, h, step); }
    assert c1.sites.Keys == c.sites.Keys && c.net <= c1.net;
    assert |c.sites.Keys| == |c.sites| && |c1.sites.Keys| == |c1.sites|;
    forall v | v in q ensures SaidUpTo(c1.net, h1, v, t, k) { assert SaidUpTo(c.net, h, v, t, k); }
  }

  lemma SettledStays(c: Cluster, h: History, step: Step, t: int, k: int)
    requires Inv(c, h) && Enabled(c, step) && Settled(c, h, t, k)
    ensures Settled(Next(c, step), Record(c, h, step), t, k) && Upto(Record(c, h, step), t, k) == Upto(h, t, k)
  {
    hide Inv, Record, Next, Enabled, Mark, SaidBy;
    var q :| SaidBy(c, h, t, k, q);
    SaidStays(c, h, step, t, k, q);
    RecordContinues(c, h, step);
    MarkStays(h, Record(c, h, step), t, k);
  }

  lemma PrefixOfUpto(h: History, h1: History, t: int, k: int, i: int)
    requires Mark(h, t, k) && Mark(h1, t, k) && Upto(h1, t, k) == Upto(h, t, k) && 0 <= i <= k
    ensures h1.logs[t][..i] == h.logs[t][..i]
  {
    assert h1.logs[t][..i] == Upto(h1, t, k)[..i];
    assert h.logs[t][..i] == Upto(h, t, k)[..i];
  }

  lemma SettledIsMarked(c: Cluster, h: History, t: int, k: int)
    requires Settled(c, h, t, k)
    ensures Mark(h, t, k)
  {}

  /** A node that keeps its commit index and what it covers keeps its backing. */
  lemma BackingStays(c: Cluster, h: History, step: Step, s: NodeState, s1: NodeState)
    requires Inv(c, h) && Enabled(c, step) && CommitSound(c, h, s)
    requires s1.commitIndex == s.commitIndex && s.log <= s1.log && s1.term >= s.term
    ensures CommitSound(Next(c, step), Record(c, h, step), s1)
  {
    hide Inv, Record, Next, Enabled, Settled, Mark;
    if s.commitIndex > 0 {
      var t, k :| Backs(c, h, t, k, s);
      SettledStays(c, h, step, t, k);
      assert Mark(h, t, k) by { SettledIsMarked(c, h, t, k); }
      assert Mark(Record(c, h, step), t, k) by { SettledIsMarked(Next(c, step), Record(c, h, step), t, k); }
      PrefixOfUpto(h, Record(c, h, step), t, k, s.commitIndex);
      assert s1.log[..s.commitIndex] == s.log[..s.commitIndex];
      assert Backs(Next(c, step), Record(c, h, step), t, k, s1);
    }
  }

  // ---- leaders and what was settled before them ----

  /** A leader was crowned with everything settled in an earlier term. */
  lemma CrownHolds(c: Cluster, h: History, g: Chronicle, n: NodeId, t: int, t0: int, k0: int)
    requires Inv(c, h) && Noted(c, h, g) && AllWatched(c, h, g)
    requires Leading(c, n, t) && Settled(c, h, t0, k0) && t0 < t
    ensures Mark(h, t0, k0) && (t, n) in g.asks && Upto(h, t0, k0) <= g.asks[(t, n)] <= c.sites[n].node.log
    ensures k0 <= |g.asks[(t, n)]|
  {
    hide Inv, Noted, AllWatched, Settled;
    SettledIsMarked(c, h, t0, k0);
    LeaderInRecords(c, h, g, n, t);
    EveryWinnerHolds(c, h, g, t0, k0, t, |h.wins[t]| - 1);
  }

  /** A follower on its way into a leader's term has committed no more than the
      leader was crowned with. */
  lemma EntersBehind(c: Cluster, h: History, g: Chronicle, n: NodeId, t: int, s: NodeState)
    requires Inv(c, h) && Noted(c, h, g) && AllWatched(c, h, g) && Leading(c, n, t)
    requires CommitSound(c, h, s) && (s.term < t || (t !in h.logs && s.term <= t))
    ensures (t, n) in g.asks && s.commitIndex <= |g.asks[(t, n)]| <= |c.sites[n].node.log|
  {
    hide Inv, Noted, AllWatched, Settled;
    LeaderInRecords(c, h, g, n, t);
    if s.commitIndex > 0 {
      var t0, k0 :| Backs(c, h, t0, k0, s);
      SettledIsMarked(c, h, t0, k0);
      CrownHolds(c, h, g, n, t, t0, k0);
    }
  }

  // ---- commit indexes ----

  lemma MaybeCommitMoves(s: NodeState, matches: seq<int>)
    requires |matches| > 0 && s.commitIndex >= 0
    ensures var k := MaybeCommit(s, matches).commitIndex;
            k != s.commitIndex ==>
              && s.role == Leader && k > s.commitIndex && 2 * Reached(matches, k) > |matches|
              && EntryAt(s, k).Some? && EntryAt(s, k).value.term == s.term
  {
    hide Threshold, Reached;
    ThresholdIsMajorityIndex(matches, Threshold(matches));
  }

  /** A reply moves the commit index only of a leader, forward, to an entry of its
      own term that a majority's match indexes have reached. */
  lemma ReplyCommitMoves(s: NodeState, r: Repl, peer: NodeId, req: AppendRequest, resp: AppendResponse)
    requires s.commitIndex >= 0
    ensures var out := OnAppendReply(s, r, peer, req, resp);
            var k := out.state.commitIndex;
            k != s.commitIndex ==>
              && s.role == Leader && resp == AppendResponse(s.term, true) && k > s.commitIndex
              && 2 * Reached(Matches(s, out.repl), k) > |s.peers| + 1
              && EntryAt(s, k).Some? && EntryAt(s, k).value.term == s.term
              && out.state == s.(commitIndex := k)
  {
    hide MaybeCommit, Reached;
    var r1 := Acknowledge(Land(r, peer), peer, req.prevLogIndex + |req.entries|);
    MaybeCommitMoves(s, Matches(s, r1));
    ReplyTouchesLittle(s, r, peer, req, resp);
  }

  /** Otherwise only an accepted request moves a commit index. */
  lemma CommitStaysPut(c: Cluster, h: History, step: Step)
    requires Inv(c, h) && step.n in c.sites && Enabled(c, step) && !step.Crash? && !step.ReceiveAppend?
    requires !step.ReceiveAppendReply?
    ensures SiteStep(c, step).0.node.commitIndex == c.sites[step.n].node.commitIndex
  {
    hide LastIndex, LastTerm, TermAt, Merge, Merged, Majority, BuildAppend, OnAppendReply, FreshRepl, Inv, LogFresh;
  }

  lemma AcceptCommits(s: NodeState, req: AppendRequest)
    ensures var out := DecideAppend(s, req);
            && (!out.resp.success ==> out.state.commitIndex == s.commitIndex)
            && (out.resp.success ==>
                  out.state.commitIndex ==
                    if req.leaderCommit > s.commitIndex then Min(req.leaderCommit, LastIndex(out.state)) else s.commitIndex)
  {
    hide Merge, Merged, TermAt;
  }

  // ---- another machine's step ----

  lemma NewAckSound(c: Cluster, h: History, g: Chronicle, step: Step, n: NodeId, v: NodeId, req: AppendRequest)
    requires Sane(c, h, g, step) && n in c.sites && n != step.n && c.sites[n].node.role == Leader && v in c.sites
    ensures n in Next(c, step).sites && v in Next(c, step).sites && AckSound(Next(c, step), n, v, req)
  {
    hide Inv, RepliesOk, Noted, AllWatched, CommitSound, SiteStep, Enabled, Clean, HasAcked, DecideAppend;
    var c1 := Next(c, step);
    NameOf(c, h, step.n);
    assert LeadSound(c, g, n) && AckSound(c, n, v, req);
    if HasAcked(c1, v, req) && req.leader == n && req.term == c.sites[n].node.term {
      NewAcks(c, step, v, req);
      if !HasAcked(c, v, req) { PromptTake(c, h, g, v, req); }
    }
  }

  lemma SameTermLeaders(c: Cluster, h: History, a: NodeId, b: NodeId, t: int)
    requires Inv(c, h) && Leading(c, a, t) && Leading(c, b, t)
    ensures a == b
  {
    SiteIsOk(c, h, a);
    SiteIsOk(c, h, b);
    OneLeaderPerTerm(c, h, a, b);
  }

  /** Where a follower of term `t` stands once it has handled a prompt request. */
  lemma TakesBehind(c: Cluster, h: History, g: Chronicle, n: NodeId, step: Step)
    requires Sane(c, h, g, step) && step.ReceiveAppend? && n in c.sites && n != step.n && c.sites[n].node.role == Leader
    requires DecideAppend(c.sites[step.n].node, step.areq).state.term == c.sites[n].node.term
    requires (c.sites[n].node.term, n) in g.asks
    ensures var (s, ci) := (c.sites[n], DecideAppend(c.sites[step.n].node, step.areq).state.commitIndex);
            || ci <= |g.asks[(s.node.term, n)]|
            || (ci == c.sites[step.n].node.commitIndex && c.sites[step.n].node.term == s.node.term)
            || (ci <= |s.node.log| && Awaits(s, step.n, R.EndOf(step.areq)) && ci <= R.EndOf(step.areq))
  {
    hide Inv, RepliesOk, Noted, AllWatched, CommitSound, Clean, DecideAppend, LeadSound, Awaits;
    var p, req, t := step.n, step.areq, c.sites[n].node.term;
    var f, out := c.sites[p].node, DecideAppend(c.sites[p].node, req);
    PromptTake(c, h, g, p, req);
    AcceptCommits(f, req);
    DecideAppendShape(f, req);
    NameOf(c, h, p);
    if f.term < t {
      EntersBehind(c, h, g, n, t, f);
    }
    if out.resp.success {
      SameTermLeaders(c, h, n, req.leader, t);
    }
  }

  lemma PeerKeepsCommit(c: Cluster, h: History, g: Chronicle, step: Step, n: NodeId)
    requires Sane(c, h, g, step) && n in c.sites && n != step.n && c.sites[n].node.role == Leader
    requires !step.ReceiveAppend?
    requires SiteStep(c, step).0.node.term == c.sites[n].node.term
    ensures SiteStep(c, step).0.node.commitIndex == c.sites[step.n].node.commitIndex
  {
    hide Inv, RepliesOk, Noted, AllWatched, Clean, LeadSound, OnAppendReply, DecideVote, ConcludeElection, FreshRepl,
         BuildAppend;
    if step.ReceiveAppendReply? {
      var s := c.sites[step.n];
      assert CommitSound(c, h, s.node);
      ReplyCommitMoves(s.node, ReplOf(s), step.from, s.calls[step.from], step.aresp);
      if OnAppendReply(s.node, ReplOf(s), step.from, s.calls[step.from], step.aresp).state.commitIndex != s.node.commitIndex {
        SameTermLeaders(c, h, n, step.n, s.node.term);
      }
    } else {
      CommitStaysPut(c, h, step);
    }
  }

  lemma PeerStaysBehind(c: Cluster, h: History, g: Chronicle, step: Step, n: NodeId, p: NodeId)
    requires Sane(c, h, g, step) && n in c.sites && n != step.n && c.sites[n].node.role == Leader && p in c.sites
    ensures n in Next(c, step).sites && p in Next(c, step).sites && PeerBehind(Next(c, step), n, p)
  {
    hide Inv, RepliesOk, Noted, AllWatched, CommitSound, SiteStep, Clean, DecideAppend;
    var s, c1 := c.sites[n], Next(c, step);
    var t, f, f1 := s.node.term, c.sites[p].node, c1.sites[p].node;
    assert LeadSound(c, g, n) && PeerBehind(c, n, p) && CommitSound(c, h, f);
    LeaderInRecords(c, h, g, n, t);
    if p == step.n && f1.term == t {
      if step.ReceiveAppend? {
        StateAfterAppend(c, step);
        TakesBehind(c, h, g, n, step);
      } else {
        LogsGrow(c, h, step);
        if f.term < t { EntersBehind(c, h, g, n, t, f); }
        PeerKeepsCommit(c, h, g, step, n);
      }
    }
  }

  lemma MarkStaysSound(net: set<Message>, net1: set<Message>, n: NodeId, s: Site, s1: Site, a: nat, p: NodeId)
    requires MarkSound(net, n, s, a, p) && net <= net1
    requires s1.node.term == s.node.term && At(ReplOf(s1).matchIndex, p) == At(ReplOf(s).matchIndex, p)
    ensures MarkSound(net1, n, s1, a, p)
  {}

  lemma BystanderLeads(c: Cluster, h: History, g: Chronicle, step: Step, n: NodeId)
    requires Sane(c, h, g, step) && n in c.sites && n != step.n
    ensures n in Next(c, step).sites && LeadSound(Next(c, step), Note(c, g, step), n)
  {
    hide Inv, RepliesOk, Noted, AllWatched, CommitSound, SiteStep, Clean, AckSound, PeerBehind, Enabled, CallsSound,
         Note;
    var c1, s := Next(c, step), c.sites[n];
    NoteGrows(c, h, g, step);
    assert LeadSound(c, g, n);
    if s.node.role == Leader {
      var a := |g.asks[(s.node.term, n)]|;
      forall v, req | v in c1.sites ensures AckSound(c1, n, v, req) { NewAckSound(c, h, g, step, n, v, req); }
      forall p | p in c1.sites ensures PeerBehind(c1, n, p) { PeerStaysBehind(c, h, g, step, n, p); }
      forall p | p in s.node.peers ensures MarkSound(c1.net, n, s, a, p) { MarkStaysSound(c.net, c1.net, n, s, s, a, p); }
    }
  }

  // ---- the leader's own steps ----

  /** A leader that stays the leader: its log only grows, a new call ends where its
      log ends, and its calls and match indexes are still sound. */
  ghost predicate Upheld(s: Site, s1: Site, net1: set<Message>, n: NodeId, a: nat) {
    && s1.node.role == Leader && s1.node.term == s.node.term
    && s.node.log <= s1.node.log && s.node.commitIndex <= s1.node.commitIndex
    && CallsSound(s1, a)
    && (forall p, end :: Awaits(s1, p, end) ==> Awaits(s, p, end) || end >= |s.node.log|)
    && (forall p | p in s1.node.peers :: MarkSound(net1, n, s1, a, p))
  }

  lemma OwnAcks(c: Cluster, h: History, g: Chronicle, step: Step, v: NodeId, req: AppendRequest)
    requires Sane(c, h, g, step) && v in c.sites && req.leader == step.n
    ensures v in Next(c, step).sites && (HasAcked(Next(c, step), v, req) ==> HasAcked(c, v, req))
  {
    hide Inv, RepliesOk, Noted, AllWatched, CommitSound, SiteStep, Enabled, Clean, HasAcked, DecideAppend;
    NameOf(c, h, step.n);
    if HasAcked(Next(c, step), v, req) {
      NewAcks(c, step, v, req);
      if !HasAcked(c, v, req) { PromptTake(c, h, g, v, req); }
    }
  }

  lemma OwnAckSound(c: Cluster, h: History, g: Chronicle, step: Step, a: nat, v: NodeId, req: AppendRequest)
    requires Sane(c, h, g, step) && v in c.sites && c.sites[step.n].node.role == Leader
    requires Upheld(c.sites[step.n], SiteStep(c, step).0, Next(c, step).net, step.n, a)
    ensures step.n in Next(c, step).sites && v in Next(c, step).sites && AckSound(Next(c, step), step.n, v, req)
  {
    hide Inv, RepliesOk, Noted, AllWatched, CommitSound, SiteStep, Enabled, Clean, HasAcked, CallsSound, MarkSound,
         Awaits;
    assert LeadSound(c, g, step.n) && AckSound(c, step.n, v, req);
    if req.leader == step.n { OwnAcks(c, h, g, step, v, req); }
  }

  lemma UpheldLeads(c: Cluster, h: History, g: Chronicle, step: Step, a: nat)
    requires Sane(c, h, g, step) && c.sites[step.n].node.role == Leader
    requires (c.sites[step.n].node.term, step.n) in g.asks && a == |g.asks[(c.sites[step.n].node.term, step.n)]|
    requires Upheld(c.sites[step.n], SiteStep(c, step).0, Next(c, step).net, step.n, a)
    ensures step.n in Next(c, step).sites && LeadSound(Next(c, step), Note(c, g, step), step.n)
  {
    hide Inv, RepliesOk, Noted, AllWatched, CommitSound, SiteStep, Enabled, Clean, CallsSound, MarkSound, AckSound,
         Awaits, Note;
    var n, c1 := step.n, Next(c, step);
    NoteGrows(c, h, g, step);
    assert LeadSound(c, g, n);
    forall v, req | v in c1.sites ensures AckSound(c1, n, v, req) { OwnAckSound(c, h, g, step, a, v, req); }
    forall p | p in c1.sites ensures PeerBehind(c1, n, p) { assert PeerBehind(c, n, p); }
  }

  lemma GrownCallSound(s: NodeState, cmd: Command, a: nat, req: AppendRequest)
    requires CallSound(s, a, req)
    ensures CallSound(AppendOwn(s, cmd), a, req)
  {
    if !R.GoesAstray(req) {
      assert AppendOwn(s, cmd).log[req.prevLogIndex..R.EndOf(req)] == s.log[req.prevLogIndex..R.EndOf(req)];
    }
  }

  lemma ProposeUpholds(s: Site, net: set<Message>, n: NodeId, a: nat, cmd: Command)
    requires s.node.role == Leader && CallsSound(s, a) && forall p | p in s.node.peers :: MarkSound(net, n, s, a, p)
    ensures Upheld(s, s.(node := AppendOwn(s.node, cmd)), net, n, a)
  {
    hide CallSound, MarkSound, FreshRepl;
    var s1 := s.(node := AppendOwn(s.node, cmd));
    FreshMarks(s.node);
    FreshMarks(s1.node);
    forall p | p in s1.calls && s1.calls[p].term == s1.node.term ensures CallSound(s1.node, a, s1.calls[p]) {
      GrownCallSound(s.node, cmd, a, s.calls[p]);
    }
    forall p | p in s1.node.peers ensures MarkSound(net, n, s1, a, p) { MarkStaysSound(net, net, n, s, s1, a, p); }
  }

  /** A new call ends where the log ends, or nobody can accept it. */
  lemma NewCallSound(s: NodeState, next: int, a: nat)
    requires s.base == 0 && next >= 1 && a <= |s.log|
    ensures var req := BuildAppend(s, next);
            CallSound(s, a, req) && req.term == s.term && (R.GoesAstray(req) || R.EndOf(req) == |s.log|)
  {
    R.BuiltCarriesTail(s, next);
  }

  lemma ReplicateUpholds(s: Site, net: set<Message>, n: NodeId, a: nat, to: NodeId)
    requires s.node.role == Leader && CallsSound(s, a) && s.node.base == 0 && a <= |s.node.log|
    requires NextFor(ReplOf(s), to) >= s.node.base + 1
    requires forall p | p in s.node.peers :: MarkSound(net, n, s, a, p)
    ensures Upheld(s, DoReplicate(s, to).0, net + DoReplicate(s, to).1, n, a)
  {
    hide CallSound, MarkSound, FreshRepl, BuildAppend, NextFor;
    var (s1, sent) := DoReplicate(s, to);
    NewCallSound(s.node, NextFor(ReplOf(s), to), a);
    forall p | p in s1.node.peers ensures MarkSound(net + sent, n, s1, a, p) {
      MarkStaysSound(net, net + sent, n, s, s1, a, p);
    }
  }

  lemma CallFailedUpholds(s: Site, net: set<Message>, n: NodeId, a: nat, to: NodeId)
    requires s.node.role == Leader && CallsSound(s, a) && forall p | p in s.node.peers :: MarkSound(net, n, s, a, p)
    ensures Upheld(s, DoCallFailed(s, to).0, net, n, a)
  {
    hide CallSound, MarkSound, FreshRepl;
    var s1 := DoCallFailed(s, to).0;
    forall p | p in s1.node.peers ensures MarkSound(net, n, s1, a, p) { MarkStaysSound(net, net, n, s, s1, a, p); }
  }

  lemma QuietUpholds(s: Site, s1: Site, net: set<Message>, net1: set<Message>, n: NodeId, a: nat)
    requires s.node.role == Leader && CallsSound(s, a) && (forall p | p in s.node.peers :: MarkSound(net, n, s, a, p))
    requires net <= net1
    requires s1.node == s.node.(dirty := s1.node.dirty) && s1.repl == s.repl && s1.calls == s.calls
    ensures Upheld(s, s1, net1, n, a)
  {
    hide MarkSound, FreshRepl;
    FreshMarks(s.node);
    FreshMarks(s1.node);
    forall p | p in s1.node.peers ensures MarkSound(net1, n, s1, a, p) { MarkStaysSound(net, net1, n, s, s1, a, p); }
  }

  /** An acknowledgement of a call of the leader's term backs the new match index. */
  lemma ReplyMarkSound(s: Site, net: set<Message>, n: NodeId, a: nat, q: NodeId, resp: AppendResponse, p: NodeId)
    requires q in s.calls && AppendReply(q, s.calls[q], resp) in net && MarkSound(net, n, s, a, p)
    requires s.calls[q].leader == n && (resp.success ==> resp.term == s.calls[q].term)
    requires DoReceiveAppendReply(s, q, resp).0.node.term == s.node.term
    ensures MarkSound(net, n, DoReceiveAppendReply(s, q, resp).0, a, p)
  {
    hide OnAppendReply, FreshRepl;
    var req, s1 := s.calls[q], DoReceiveAppendReply(s, q, resp).0;
    ReplyShape(s.node, ReplOf(s), q, req, resp);
    if At(ReplOf(s1).matchIndex, p) == At(ReplOf(s).matchIndex, p) {
      MarkStaysSound(net, net, n, s, s1, a, p);
    } else {
      assert resp == AppendResponse(s.node.term, true) && p == q && R.EndOf(req) == At(ReplOf(s1).matchIndex, p);
      assert MarkSound(net, n, s1, a, p);
    }
  }

  lemma ReplyUpholds(s: Site, net: set<Message>, n: NodeId, a: nat, q: NodeId, resp: AppendResponse)
    requires s.node.role == Leader && CallsSound(s, a) && (forall p | p in s.node.peers :: MarkSound(net, n, s, a, p))
    requires s.node.commitIndex >= 0
    requires q in s.calls && AppendReply(q, s.calls[q], resp) in net
    requires s.calls[q].leader == n && (resp.success ==> resp.term == s.calls[q].term)
    requires DoReceiveAppendReply(s, q, resp).0.node.role == Leader
    ensures Upheld(s, DoReceiveAppendReply(s, q, resp).0, net, n, a)
  {
    hide OnAppendReply, FreshRepl, MarkSound;
    var s1 := DoReceiveAppendReply(s, q, resp).0;
    ReplyTouchesLittle(s.node, ReplOf(s), q, s.calls[q], resp);
    ReplyCommitMoves(s.node, ReplOf(s), q, s.calls[q], resp);
    forall p | p in s1.node.peers ensures MarkSound(net, n, s1, a, p) { ReplyMarkSound(s, net, n, a, q, resp, p); }
    forall p | p in s1.calls && s1.calls[p].term == s1.node.term ensures CallSound(s1.node, a, s1.calls[p]) {
      assert CallSound(s.node, a, s.calls[p]);
    }
  }

  /** Nobody comes to lead but by winning an election. */
  lemma LedBefore(c: Cluster, h: History, step: Step)
    requires Inv(c, h) && step.n in c.sites && Enabled(c, step) && !step.Crash?
    requires SiteStep(c, step).0.node.role == Leader
    requires !(step.FinishElection? && Winning(c, step.n))
    ensures c.sites[step.n].node.role == Leader && SiteStep(c, step).0.node.term == c.sites[step.n].node.term
  {
    hide LastIndex, LastTerm, TermAt, Merge, Merged, Majority, BuildAppend, OnAppendReply, FreshRepl, Inv, LogFresh;
    var s := c.sites[step.n];
    if step.ReceiveAppendReply? { ReplyTouchesLittle(s.node, ReplOf(s), step.from, s.calls[step.from], step.aresp); }
  }

  lemma RepliesAnswerCalls(c: Cluster, n: NodeId, q: NodeId, resp: AppendResponse)
    requires RepliesOk(c) && n in c.sites && q in c.sites[n].calls && AppendReply(q, c.sites[n].calls[q], resp) in c.net
    ensures c.sites[n].calls[q].leader == n && (resp.success ==> resp.term == c.sites[n].calls[q].term)
  {
    assert CallsOk(c.sites.Keys, c.net, n, c.sites[n]);
  }

  lemma OwnStepUpholds(c: Cluster, h: History, g: Chronicle, step: Step, a: nat)
    requires Sane(c, h, g, step) && Leading(c, step.n, c.sites[step.n].node.term)
    requires SiteStep(c, step).0.node.role == Leader
    requires (c.sites[step.n].node.term, step.n) in g.asks
    requires a == |g.asks[(c.sites[step.n].node.term, step.n)]| <= |c.sites[step.n].node.log|
    requires SiteStep(c, step).0.node.term == c.sites[step.n].node.term
    ensures Upheld(c.sites[step.n], SiteStep(c, step).0, Next(c, step).net, step.n, a)
  {
    hide Inv, RepliesOk, Noted, AllWatched, Clean, CallsSound, MarkSound, AckSound, PeerBehind, Upheld,
      OnAppendReply, DecideAppend, DecideVote, ConcludeElection, FreshRepl, BuildAppend, NextFor;
    var n, s, net1 := step.n, c.sites[step.n], Next(c, step).net;
    assert LeadSound(c, g, n) && CommitSound(c, h, s.node);
    NameOf(c, h, n);
    if step.Propose? {
      ProposeUpholds(s, c.net, n, a, step.cmd);
      assert net1 == c.net;
    } else if step.Replicate? {
      ReplicateUpholds(s, c.net, n, a, step.to);
    } else if step.CallFailed? {
      CallFailedUpholds(s, c.net, n, a, step.to);
      assert net1 == c.net;
    } else if step.ReceiveAppendReply? {
      RepliesAnswerCalls(c, n, step.from, step.aresp);
      ReplyUpholds(s, c.net, n, a, step.from, step.aresp);
      assert net1 == c.net;
    } else {
      LeaderStepShape(c, h, n, s.node.term, step);
      QuietUpholds(s, SiteStep(c, step).0, c.net, net1, n, a);
    }
  }

  // ---- victory ----

  lemma CrownIsAsked(c: Cluster, h: History, g: Chronicle, n: NodeId)
    requires Inv(c, h) && Noted(c, h, g) && Winning(c, n)
    ensures (c.sites[n].node.term, n) in g.asks && g.asks[(c.sites[n].node.term, n)] == c.sites[n].node.log
  {
    hide Inv, PagesSourced, SolicitsNoted, WinsNoted, Fresher, Describes;
    WinSite(c, h, n);
    assert SiteNoted(n, c.sites[n], c.net, g);
  }

  lemma FollowersBehindWinner(c: Cluster, h: History, g: Chronicle, n: NodeId, p: NodeId)
    requires Sane(c, h, g, FinishElection(n)) && Winning(c, n) && p in c.sites && p != n
    requires c.sites[p].node.term == c.sites[n].node.term
    ensures c.sites[p].node.commitIndex <= |c.sites[n].node.log|
  {
    hide RepliesOk, Inv, Noted, AllWatched, LeadSound, CommitSound, Record, Next, Enabled, Clean;
    var step, t := FinishElection(n), c.sites[n].node.term;
    var c1, h1 := Next(c, step), Record(c, h, step);
    StepKeepsInv(c, h, step);
    StepKeepsNotes(c, h, g, step);
    StepKeepsWatch(c, h, g, step);
    TermStillOpen(c, h, n);
    WinShape(c, h, n);
    BackingStays(c, h, step, c.sites[p].node, c.sites[p].node);
    CrownIsAsked(c, h, g, n);
    EntersBehind(c1, h1, g, n, t, c.sites[p].node);
  }

  lemma SameAcks(c: Cluster, c1: Cluster, v: NodeId, req: AppendRequest)
    requires v in c.sites && v in c1.sites && c1.net == c.net && c1.sites[v].pending == c.sites[v].pending
    ensures HasAcked(c1, v, req) <==> HasAcked(c, v, req)
  {}

  lemma VictoryLeads(c: Cluster, h: History, g: Chronicle, n: NodeId)
    requires Sane(c, h, g, FinishElection(n)) && Winning(c, n)
    ensures n in Next(c, FinishElection(n)).sites && LeadSound(Next(c, FinishElection(n)), g, n)
  {
    hide RepliesOk, Inv, Noted, AllWatched, CommitSound, Record, Next, Clean, HasAcked, FreshRepl;
    var step, s, t := FinishElection(n), c.sites[n], c.sites[n].node.term;
    var c1 := Next(c, step);
    WinShape(c, h, n);
    var s1 := c1.sites[n];
    CrownIsAsked(c, h, g, n);
    NameOf(c, h, n);
    FreshMarks(s.node);
    FreshMarks(s1.node);
    assert MatchesWithin(s) && forall p :: At(ReplOf(s1).matchIndex, p) == At(ReplOf(s).matchIndex, p);
    forall p ensures !(p in s1.calls && s1.calls[p].term == t) { NoCallYet(c, h, n, p); }
    forall v, req | v in c1.sites ensures AckSound(c1, n, v, req) {
      if HasAcked(c1, v, req) && req.leader == n && req.term == t {
        SameAcks(c, c1, v, req);
        NoAckYet(c, h, n, v, req);
      }
    }
    forall p | p in c1.sites ensures PeerBehind(c1, n, p) {
      if p != n && c.sites[p].node.term == t { FollowersBehindWinner(c, h, g, n, p); }
    }
  }

  lemma FollowersLeadNothing(c: Cluster, g: Chronicle, n: NodeId)
    requires n in c.sites && c.sites[n].node.role != Leader
    ensures LeadSound(c, g, n)
  {}

  lemma OwnLeads(c: Cluster, h: History, g: Chronicle, step: Step)
    requires Sane(c, h, g, step)
    ensures step.n in Next(c, step).sites && LeadSound(Next(c, step), Note(c, g, step), step.n)
  {
    hide RepliesOk, Inv, Noted, AllWatched, CommitSound, SiteStep, Clean, LeadSound, Winning, Upheld;
    var n, s, s1 := step.n, c.sites[step.n], SiteStep(c, step).0;
    if s1.node.role == Leader {
      if step.FinishElection? && Winning(c, n) {
        VictoryLeads(c, h, g, n);
      } else {
        LedBefore(c, h, step);
        LeaderInRecords(c, h, g, n, s.node.term);
        OwnStepUpholds(c, h, g, step, |g.asks[(s.node.term, n)]|);
        UpheldLeads(c, h, g, step, |g.asks[(s.node.term, n)]|);
      }
    } else {
      FollowersLeadNothing(Next(c, step), Note(c, g, step), n);
    }
  }

  /** Every leader's books stay sound. */
  lemma StepKeepsLeads(c: Cluster, h: History, g: Chronicle, step: Step, n: NodeId)
    requires Sane(c, h, g, step) && n in c.sites
    ensures n in Next(c, step).sites && LeadSound(Next(c, step), Note(c, g, step), n)
  {
    hide Sane, LeadSound, Next, Note;
    if n == step.n { OwnLeads(c, h, g, step); } else { BystanderLeads(c, h, g, step, n); }
  }
}
