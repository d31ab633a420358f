/** What every orderly step keeps: each leader's calls, acknowledgements and match
    indexes are sound, every machine that vouches for an entry shows it, and every
    commit index is backed by a majority. */
module Stewardship {
  import opened Basics
  import opened Commands
  import opened RaftNode
  import opened MergeExactness
  import opened Commit
  import opened LeaderLogic
  import opened Cluster
  import opened ClusterInvariant
  import opened ClusterSteps
  import opened ClusterSafety
  import opened ClusterCommit
  import opened Chronicle
  import opened Completeness
  import R = Replication

  // ---- growth of the records ----

  ghost predicate Continues(h: History, h1: History) {
    && (forall u | u in h.wins :: u in h1.wins && h.wins[u] <= h1.wins[u])
    && (forall u | u in h.logs :: u in h1.logs && h.logs[u] <= h1.logs[u] && u in h.wins && h1.wins[u] == h.wins[u])
  }

  lemma RecordContinues(c: Cluster, h: History, step: Step)
    requires Inv(c, h) && Enabled(c, step)
    ensures Continues(h, Record(c, h, step))
  {
    hide SitesOk, NetOk, ConcludeElection, WinListOk, TermLogOk;
    var n := step.n;
    assert forall u | u in h.logs :: u in h.wins;
    if step.FinishElection? && Winning(c, n) {
      WinShape(c, h, n);
      TermStillOpen(c, h, n);
    } else if step.Propose? {
      LeaderLogIsHistory(c, h, n);
    }
  }

  lemma MarkStays(h: History, h1: History, t: int, k: int)
    requires Continues(h, h1) && Mark(h, t, k)
    ensures Mark(h1, t, k) && Upto(h1, t, k) == Upto(h, t, k)
    ensures forall v :: LastWinner(h1, t, v) <==> LastWinner(h, t, v)
  {}

  lemma BrokenStays(h: History, g: Chronicle, h1: History, g1: Chronicle, n: NodeId, t: int, e: seq<Entry>)
    requires Continues(h, h1) && Grows(g, g1, n)
    ensures forall b :: Broken(h, g, t, e, b) ==> Broken(h1, g1, t, e, b)
    ensures forall u, i :: BrokenBefore(h, g, t, e, u, i) ==> BrokenBefore(h1, g1, t, e, u, i)
  {
    assert forall u, i :: LacksAt(h, g, u, i, e) ==> LacksAt(h1, g1, u, i, e);
    forall b | Broken(h, g, t, e, b) ensures Broken(h1, g1, t, e, b) {
      var u, i :| LacksAt(h, g, u, i, e) && t < u <= b;
      assert LacksAt(h1, g1, u, i, e);
    }
    forall u, i | BrokenBefore(h, g, t, e, u, i) ensures BrokenBefore(h1, g1, t, e, u, i) {
      var w, j :| LacksAt(h, g, w, j, e) && t < w && (w < u || (w == u && j < i));
      assert LacksAt(h1, g1, w, j, e);
    }
  }

  lemma BrokenLater(h: History, g: Chronicle, t: int, e: seq<Entry>, b: int, b1: int)
    requires Broken(h, g, t, e, b) && b <= b1
    ensures Broken(h, g, t, e, b1)
  {
    var u, i :| LacksAt(h, g, u, i, e) && t < u <= b;
  }

  // ---- what leaders keep ----

  ghost predicate Carries(log: seq<Entry>, req: AppendRequest) {
    var prev, end := req.prevLogIndex, R.EndOf(req);
    && 0 <= prev && end <= |log| && req.entries == log[prev..end]
    && (prev > 0 ==> req.prevLogTerm == log[prev - 1].term)
  }

  /** `a` is the length of the log the leader was crowned with. */
  ghost predicate CallSound(s: NodeState, a: nat, req: AppendRequest) {
    && (R.GoesAstray(req) || (Carries(s.log, req) && a <= R.EndOf(req)))
    && req.leaderCommit <= s.commitIndex
  }

  ghost predicate CallsSound(s: Site, a: nat) {
    forall p | p in s.calls && s.calls[p].term == s.node.term :: CallSound(s.node, a, s.calls[p])
  }

  /** The end of the call under way to `p` in the leader's term, if it can be accepted. */
  ghost predicate Awaits(s: Site, p: NodeId, end: int) {
    p in s.calls && s.calls[p].term == s.node.term && !R.GoesAstray(s.calls[p]) && R.EndOf(s.calls[p]) == end
  }

  ghost predicate AckSound(c: Cluster, n: NodeId, v: NodeId, req: AppendRequest)
    requires n in c.sites && v in c.sites
  {
    HasAcked(c, v, req) && req.leader == n && req.term == c.sites[n].node.term ==>
      && R.EndOf(req) <= |c.sites[n].node.log|
      && (forall end :: Awaits(c.sites[n], v, end) ==> R.EndOf(req) <= end)
  }

  ghost predicate MarkSound(net: set<Message>, n: NodeId, s: Site, a: nat, p: NodeId) {
    At(ReplOf(s).matchIndex, p) > a ==>
      exists req :: AppendReply(p, req, AppendResponse(s.node.term, true)) in net && req.term == s.node.term
                    && req.leader == n
                    && R.EndOf(req) >= At(ReplOf(s).matchIndex, p)
  }

  ghost predicate PeerBehind(c: Cluster, n: NodeId, p: NodeId)
    requires n in c.sites && p in c.sites
  {
    p != n && c.sites[p].node.term == c.sites[n].node.term ==>
      && c.sites[p].node.commitIndex <= |c.sites[n].node.log|
      && (forall end :: Awaits(c.sites[n], p, end) ==> c.sites[p].node.commitIndex <= end)
  }

  ghost predicate LeadSound(c: Cluster, g: Chronicle, n: NodeId)
    requires n in c.sites
  {
    var s := c.sites[n];
    s.node.role == Leader ==>
      && (s.node.term, n) in g.asks
      && var a := |g.asks[(s.node.term, n)]|;
         && CallsSound(s, a)
         && (forall v, req | v in c.sites :: AckSound(c, n, v, req))
         && (forall p | p in s.node.peers :: MarkSound(c.net, n, s, a, p))
         && (forall p | p in c.sites :: PeerBehind(c, n, p))
  }

  ghost predicate Backs(c: Cluster, h: History, t: int, k: int, s: NodeState)
    requires 0 <= s.commitIndex <= |s.log|
  {
    Settled(c, h, t, k) && s.commitIndex <= k && t <= s.term && h.logs[t][..s.commitIndex] == s.log[..s.commitIndex]
  }

  /** A commit index is within the log, and a majority vouches for what it covers. */
  ghost predicate CommitSound(c: Cluster, h: History, s: NodeState) {
    && 0 <= s.commitIndex <= |s.log|
    && (s.commitIndex > 0 ==> exists t, k :: Backs(c, h, t, k, s))
  }

  ghost predicate Good(c: Cluster, h: History, g: Chronicle) {
    && Inv(c, h) && RepliesOk(c) && Noted(c, h, g) && AllWatched(c, h, g)
    && (forall n | n in c.sites :: LeadSound(c, g, n))
    && (forall n | n in c.sites :: CommitSound(c, h, c.sites[n].node))
  }

  // ---- a prompt request ----

  lemma LeaderTerms(c: Cluster, h: History, n: NodeId)
    requires Inv(c, h) && n in c.sites
    ensures forall i | 0 <= i < |c.sites[n].node.log| :: c.sites[n].node.log[i].term >= 0
  {
    assert SiteOk(c.sites.Keys, n, c.sites[n], c.net, h);
  }

  lemma PromptMerge(c: Cluster, h: History, p: NodeId, req: AppendRequest)
    requires Inv(c, h) && p in c.sites && Leading(c, req.leader, req.term)
    requires R.GoesAstray(req) || Carries(c.sites[req.leader].node.log, req)
    requires CheckPrevLog(c.sites[p].node, req.prevLogIndex, req.prevLogTerm)
    ensures !R.GoesAstray(req)
    ensures var f := c.sites[p].node;
            Merge(f.log, f.base, req.prevLogIndex, req.entries) == c.sites[req.leader].node.log[..R.EndOf(req)]
  {
    hide Inv;
    var f, full := c.sites[p].node, c.sites[req.leader].node.log;
    PeerAgrees(c, h, req.leader, req.term, p);
    assert !R.GoesAstray(req);
    LeaderTerms(c, h, req.leader);
    AcceptedMergeIsExact(f, req, full);
    assert Merge(f.log, f.base, req.prevLogIndex, req.entries) == full[..R.EndOf(req)];
  }

  /** A request that is accepted while its sender waits for it leaves the receiver
      with the sender's log up to the end of the request, which takes in all the
      sender was crowned with. */
  lemma PromptTake(c: Cluster, h: History, g: Chronicle, p: NodeId, req: AppendRequest)
    requires Inv(c, h) && RepliesOk(c) && p in c.sites && Prompt(c, p, req) && LeadSound(c, g, req.leader)
    ensures p != req.leader && (req.term, req.leader) in g.asks
    ensures var (f, l, a) := (c.sites[p].node, c.sites[req.leader], |g.asks[(req.term, req.leader)]|);
            var out := DecideAppend(f, req);
            && out.state.term == Max(f.term, req.term)
            && (!out.resp.success ==> out.state.log == f.log)
            && (out.resp.success ==>
                  && f.term <= req.term && Awaits(l, p, R.EndOf(req)) && a <= R.EndOf(req) <= |l.node.log|
                  && out.state.log == l.node.log[..R.EndOf(req)])
  {
    hide DecideAppend, Inv, R.Agrees, CheckPrevLog;
    var n, f := req.leader, c.sites[p].node;
    var l := c.sites[n];
    var out := DecideAppend(f, req);
    CallsGoToPeers(c, h, n, p);
    DecideAppendShape(f, req);
    assert CallSound(l.node, |g.asks[(req.term, n)]|, req);
    if out.resp.success { PromptMerge(c, h, p, req); }
  }

  // ---- every machine that vouches for an entry shows it ----

  lemma ShowsStays(h: History, g: Chronicle, h1: History, g1: Chronicle, n: NodeId, v: NodeId, s: NodeState, t: int,
                   e: seq<Entry>)
    requires Shows(h, g, v, s, t, e) && Continues(h, h1) && Grows(g, g1, n) && v != n
    ensures Shows(h1, g1, v, s, t, e)
  {
    hide Broken, Continues;
    BrokenStays(h, g, h1, g1, n, t, e);
  }

  ghost predicate Sane(c: Cluster, h: History, g: Chronicle, step: Step) {
    Good(c, h, g) && step.n in c.sites && Enabled(c, step) && Clean(c, step) && Orderly(c, step)
  }

  lemma BystanderWatched(c: Cluster, h: History, g: Chronicle, step: Step, v: NodeId, t: int, k: int)
    requires Sane(c, h, g, step) && v in c.sites && v != step.n && Mark(h, t, k)
    ensures v in Next(c, step).sites && Mark(Record(c, h, step), t, k)
    ensures Watched(Next(c, step), Record(c, h, step), Note(c, g, step), v, t, k)
  {
    hide Inv, RepliesOk, Noted, Shows, SiteStep, Record, Note, Enabled, Clean, HasAcked, LeadSound, CommitSound, Mark,
         Upto;
    var c1, h1, g1 := Next(c, step), Record(c, h, step), Note(c, g, step);
    RecordContinues(c, h, step);
    NoteGrows(c, h, g, step);
    MarkStays(h, h1, t, k);
    NameOf(c, h, step.n);
    assert Watched(c, h, g, v, t, k);
    if AckedUpTo(c1, h1, v, t, k) {
      var req :| HasAcked(c1, v, req) && req.term == t && LastWinner(h1, t, req.leader) && R.EndOf(req) >= k;
      NewAcks(c, step, v, req);
    }
    if Vouches(c, h, v, t, k) { ShowsStays(h, g, h1, g1, step.n, v, c.sites[v].node, t, Upto(h, t, k)); }
  }

  /** What a leader of term `t` is to the records. */
  lemma LeaderInRecords(c: Cluster, h: History, g: Chronicle, n: NodeId, t: int)
    requires Inv(c, h) && Noted(c, h, g) && Leading(c, n, t)
    ensures LastWinner(h, t, n) && (t, n) in g.asks && g.asks[(t, n)] <= c.sites[n].node.log
    ensures t in h.logs ==> h.logs[t] == c.sites[n].node.log
  {
    hide Inv, PagesSourced, SolicitsNoted, WinsNoted, Fresher, Describes;
    LeaderLogIsHistory(c, h, n);
    assert SiteNoted(n, c.sites[n], c.net, g);
  }

  lemma BrokenBy(h: History, g: Chronicle, t: int, e: seq<Entry>, u: int, i: int)
    requires LacksAt(h, g, u, i, e) && t < u
    ensures Broken(h, g, t, e, u)
  {}

  lemma AcceptSameTerm(c: Cluster, h: History, g: Chronicle, step: Step, t: int, k: int)
    requires Sane(c, h, g, step) && step.ReceiveAppend? && Mark(h, t, k) && step.areq.term == t
    requires Vouches(c, h, step.n, t, k) && DecideAppend(c.sites[step.n].node, step.areq).resp.success
    ensures Upto(h, t, k) <= DecideAppend(c.sites[step.n].node, step.areq).state.log
  {
    hide Inv, RepliesOk, Noted, DecideAppend, Enabled, Clean, HasAcked, CommitSound, AllWatched;
    var p, req := step.n, step.areq;
    var n := req.leader;
    PromptTake(c, h, g, p, req);
    LeaderInRecords(c, h, g, n, t);
    assert !LastWinner(h, t, p);
    var past :| HasAcked(c, p, past) && past.term == t && LastWinner(h, t, past.leader) && R.EndOf(past) >= k;
    assert AckSound(c, n, p, past);
  }

  /** Accepting a prompt request keeps what the machine vouched for, or shows who
      broke the chain. */
  lemma AcceptShows(c: Cluster, h: History, g: Chronicle, step: Step, t: int, k: int)
    requires Sane(c, h, g, step) && step.ReceiveAppend? && Mark(h, t, k)
    requires Vouches(c, h, step.n, t, k) && Shows(h, g, step.n, c.sites[step.n].node, t, Upto(h, t, k))
    ensures var s1 := DecideAppend(c.sites[step.n].node, step.areq).state;
            s1.term >= t && (Upto(h, t, k) <= s1.log || Broken(h, g, t, Upto(h, t, k), s1.term))
  {
    hide Inv, RepliesOk, Noted, DecideAppend, Enabled, Clean, HasAcked, CommitSound, AllWatched, Broken;
    var p, req, e := step.n, step.areq, Upto(h, t, k);
    var n, f, out := req.leader, c.sites[p].node, DecideAppend(c.sites[p].node, req);
    PromptTake(c, h, g, p, req);
    if !out.resp.success {
      if !(e <= f.log) { BrokenLater(h, g, t, e, f.term, out.state.term); }
    } else {
      LeaderInRecords(c, h, g, n, req.term);
      if req.term == t {
        AcceptSameTerm(c, h, g, step, t, k);
      } else if !(e <= g.asks[(req.term, n)]) {
        assert LacksAt(h, g, req.term, |h.wins[req.term]| - 1, e);
        BrokenBy(h, g, t, e, req.term, |h.wins[req.term]| - 1);
      }
    }
  }

  /** What a step other than an accepted request does to the log and the term. */
  lemma LogsGrow(c: Cluster, h: History, step: Step)
    requires Inv(c, h) && Enabled(c, step) && !step.Crash? && !step.ReceiveAppend?
    ensures var (s, s1) := (c.sites[step.n].node, SiteStep(c, step).0.node);
            s1.term >= s.term && s.log <= s1.log && (!step.Propose? ==> s1.log == s.log)
  {
    hide LastIndex, LastTerm, TermAt, Merge, Merged, Majority, BuildAppend, OnAppendReply, FreshRepl, Inv, LogFresh;
    var s := c.sites[step.n];
    if step.ReceiveAppendReply? { ReplyTouchesLittle(s.node, ReplOf(s), step.from, s.calls[step.from], step.aresp); }
    if step.TallyVote? || step.FinishElection? || step.QuorumLoss? { NameOf(c, h, step.n); }
  }

  lemma NewBallot(c: Cluster, g: Chronicle, step: Step)
    requires Enabled(c, step)
    ensures forall u | (step.n, u) in Note(c, g, step).ballots && (step.n, u) !in g.ballots ::
              u >= c.sites[step.n].node.term && Note(c, g, step).ballots[(step.n, u)] == c.sites[step.n].node.log
  {}

  /** A machine keeps showing what it vouched for through its own steps. */
  lemma OwnShows(c: Cluster, h: History, g: Chronicle, step: Step, t: int, k: int)
    requires Sane(c, h, g, step) && Mark(h, t, k)
    requires Vouches(c, h, step.n, t, k) && Shows(h, g, step.n, c.sites[step.n].node, t, Upto(h, t, k))
    ensures Shows(Record(c, h, step), Note(c, g, step), step.n, SiteStep(c, step).0.node, t, Upto(h, t, k))
  {
    hide Inv, RepliesOk, Noted, SiteStep, Record, Clean, HasAcked, CommitSound, AllWatched, Broken, LeadSound,
         Continues, DecideVote, Upto;
    var v, e := step.n, Upto(h, t, k);
    var s, s1, h1, g1 := c.sites[v].node, SiteStep(c, step).0.node, Record(c, h, step), Note(c, g, step);
    RecordContinues(c, h, step);
    NoteGrows(c, h, g, step);
    BrokenStays(h, g, h1, g1, v, t, e);
    if step.ReceiveAppend? {
      AcceptShows(c, h, g, step, t, k);
      StateAfterAppend(c, step);
    } else {
      LogsGrow(c, h, step);
      if !(e <= s.log) { BrokenLater(h, g, t, e, s.term, s1.term); }
    }
    forall u | t < u && (v, u) in g1.ballots ensures e <= g1.ballots[(v, u)] || Broken(h1, g1, t, e, u) {
      if (v, u) !in g.ballots && !(e <= s.log) {
        NewBallot(c, g, step);
        BrokenLater(h, g, t, e, s.term, u);
      }
    }
  }

  /** A machine that has just accepted a request shows what it now vouches for. */
  lemma NewlyShows(c: Cluster, h: History, g: Chronicle, step: Step, t: int, k: int)
    requires Sane(c, h, g, step) && step.ReceiveAppend? && Mark(h, t, k) && step.areq.term == t
    requires LastWinner(h, t, step.areq.leader) && R.EndOf(step.areq) >= k
    requires DecideAppend(c.sites[step.n].node, step.areq).resp.success
    ensures Shows(h, g, step.n, DecideAppend(c.sites[step.n].node, step.areq).state, t, Upto(h, t, k))
  {
    hide Inv, RepliesOk, DecideAppend, Enabled, Clean, HasAcked, CommitSound, AllWatched, PagesSourced, SolicitsNoted,
         WinsNoted, Fresher, Describes, Broken;
    var p, req := step.n, step.areq;
    PromptTake(c, h, g, p, req);
    LeaderInRecords(c, h, g, req.leader, t);
    assert SiteNoted(p, c.sites[p], c.net, g);
  }

  lemma OwnWatched(c: Cluster, h: History, g: Chronicle, step: Step, t: int, k: int)
    requires Sane(c, h, g, step) && Mark(h, t, k)
    ensures step.n in Next(c, step).sites && Mark(Record(c, h, step), t, k)
    ensures Watched(Next(c, step), Record(c, h, step), Note(c, g, step), step.n, t, k)
  {
    hide Inv, RepliesOk, Noted, Shows, SiteStep, Clean, HasAcked, LeadSound, CommitSound, Mark, Upto, DecideAppend,
         DecideVote, ConcludeElection;
    var c1, h1, g1, v := Next(c, step), Record(c, h, step), Note(c, g, step), step.n;
    RecordContinues(c, h, step);
    MarkStays(h, h1, t, k);
    NameOf(c, h, v);
    assert Watched(c, h, g, v, t, k);
    if Vouches(c, h, v, t, k) {
      OwnShows(c, h, g, step, t, k);
    } else if Vouches(c1, h1, v, t, k) {
      var req :| HasAcked(c1, v, req) && req.term == t && LastWinner(h1, t, req.leader) && R.EndOf(req) >= k;
      NewAcks(c, step, v, req);
      StateAfterAppend(c, step);
      NewlyShows(c, h, g, step, t, k);
    }
  }

  /** Whoever helped elect the winner of term `u` has reached that term. */
  lemma QuorumTerm(c: Cluster, h: History, u: int, i: int, v: NodeId)
    requires Inv(c, h) && u in h.wins && 0 <= i < |h.wins[u]| && v in h.wins[u][i].quorum
    ensures v in c.sites && c.sites[v].node.term >= u
  {
    hide NetOk;
    var w := h.wins[u][i];
    assert WinListOk(c.sites.Keys, c.net, u, h.wins[u]);
    assert WinOk(c.sites.Keys, c.net, u, w);
    assert SiteOk(c.sites.Keys, v, c.sites[v], c.net, h);
    if v == w.leader {
      assert Won(h, u, v);
    } else {
      assert Granted(c.net, v, u, w.leader) && Cast(v, c.sites[v], c.net, u, w.leader);
    }
  }

  /** Nobody comes to vouch for term `t` once it has reached a later one. */
  lemma NoLateVouching(c: Cluster, h: History, g: Chronicle, step: Step, v: NodeId, t: int, k: int)
    requires Sane(c, h, g, step) && v in c.sites && Mark(h, t, k) && c.sites[v].node.term > t
    ensures v in Next(c, step).sites && Mark(Record(c, h, step), t, k)
    ensures Vouches(Next(c, step), Record(c, h, step), v, t, k) ==> Vouches(c, h, v, t, k)
  {
    hide Inv, RepliesOk, Noted, SiteStep, Clean, HasAcked, CommitSound, Mark, DecideAppend, DecideVote,
         ConcludeElection, AllWatched;
    var c1, h1 := Next(c, step), Record(c, h, step);
    RecordContinues(c, h, step);
    MarkStays(h, h1, t, k);
    NameOf(c, h, step.n);
    if AckedUpTo(c1, h1, v, t, k) {
      var req :| HasAcked(c1, v, req) && req.term == t && LastWinner(h1, t, req.leader) && R.EndOf(req) >= k;
      NewAcks(c, step, v, req);
      if !HasAcked(c, v, req) { PromptTake(c, h, g, v, req); }
    }
  }

  lemma SightStays(g: Chronicle, g1: Chronicle, m: NodeId, u: int, n: NodeId, v: NodeId, e: seq<Entry>)
    requires Grows(g, g1, m) && SightHas(g, u, n, v, e)
    ensures SightHas(g1, u, n, v, e)
  {}

  lemma OldWinWatched(c: Cluster, h: History, g: Chronicle, step: Step, u: int, i: int, v: NodeId, t: int, k: int)
    requires Sane(c, h, g, step) && v in c.sites && Mark(h, t, k) && u in h.wins && 0 <= i < |h.wins[u]|
    ensures var (c1, h1) := (Next(c, step), Record(c, h, step));
            v in c1.sites && Mark(h1, t, k) && u in h1.wins && i < |h1.wins[u]|
            && WinWatched(c1, h1, Note(c, g, step), u, i, v, t, k)
  {
    hide Inv, RepliesOk, Noted, SiteStep, Record, Note, Clean, Vouches, LeadSound, CommitSound, Mark, Upto, SightHas,
         BrokenBefore, Watched;
    var c1, h1, g1 := Next(c, step), Record(c, h, step), Note(c, g, step);
    RecordContinues(c, h, step);
    NoteGrows(c, h, g, step);
    MarkStays(h, h1, t, k);
    BrokenStays(h, g, h1, g1, step.n, t, Upto(h, t, k));
    assert WinWatched(c, h, g, u, i, v, t, k);
    if t < u && v in h.wins[u][i].quorum && Vouches(c1, h1, v, t, k) {
      QuorumTerm(c, h, u, i, v);
      NoLateVouching(c, h, g, step, v, t, k);
      if SightHas(g, u, h.wins[u][i].leader, v, Upto(h, t, k)) {
        SightStays(g, g1, step.n, u, h.wins[u][i].leader, v, Upto(h, t, k));
      }
    }
  }

  lemma WonVouching(c: Cluster, h: History, n: NodeId, v: NodeId, t: int, k: int)
    requires Inv(c, h) && RepliesOk(c) && Enabled(c, FinishElection(n)) && Winning(c, n) && v in c.sites
    requires Mark(h, t, k)
    requires v in Next(c, FinishElection(n)).sites
    requires Vouches(Next(c, FinishElection(n)), Record(c, h, FinishElection(n)), v, t, k)
    ensures Vouches(c, h, v, t, k)
  {
    hide Inv, RepliesOk, Record, Next, HasAcked;
    var step := FinishElection(n);
    var c1, h1 := Next(c, step), Record(c, h, step);
    RecordContinues(c, h, step);
    MarkStays(h, h1, t, k);
    NameOf(c, h, n);
    if AckedUpTo(c1, h1, v, t, k) {
      var req :| HasAcked(c1, v, req) && req.term == t && LastWinner(h1, t, req.leader) && R.EndOf(req) >= k;
      NewAcks(c, step, v, req);
    }
  }

  lemma BallotOfVoter(c: Cluster, h: History, g: Chronicle, n: NodeId, v: NodeId)
    requires Inv(c, h) && Noted(c, h, g) && Winning(c, n) && v in c.sites[n].campaign.tally + {n}
    ensures v in c.sites && (if v == n then (c.sites[n].node.term, n) in g.asks else (v, c.sites[n].node.term) in g.ballots)
  {
    hide PagesSourced, SolicitsNoted, WinsNoted, Fresher, Describes, NetOk, HistoryOk;
    WinSite(c, h, n);
    assert SiteOk(c.sites.Keys, n, c.sites[n], c.net, h) && SiteNoted(n, c.sites[n], c.net, g);
    if v != n {
      assert Granted(c.net, v, c.sites[n].node.term, n);
      assert SiteNoted(v, c.sites[v], c.net, g) && Cast(v, c.sites[v], c.net, c.sites[n].node.term, n);
    }
  }

  lemma BrokenEarlier(h: History, g: Chronicle, h1: History, t: int, e: seq<Entry>, u: int)
    requires Continues(h, h1) && u in h1.wins && |h1.wins[u]| == (if u in h.wins then |h.wins[u]| else 0) + 1
    requires Broken(h, g, t, e, u - 1) || Broken(h, g, t, e, u)
    ensures BrokenBefore(h1, g, t, e, u, |h1.wins[u]| - 1)
  {
    var w, j :| LacksAt(h, g, w, j, e) && t < w <= u;
    assert LacksAt(h1, g, w, j, e);
  }

  /** An election just won, seen by those who elected. */
  lemma NewWinWatched(c: Cluster, h: History, g: Chronicle, n: NodeId, v: NodeId, t: int, k: int)
    requires Sane(c, h, g, FinishElection(n)) && Winning(c, n) && v in c.sites && Mark(h, t, k)
    ensures var (c1, h1, u) := (Next(c, FinishElection(n)), Record(c, h, FinishElection(n)), c.sites[n].node.term);
            v in c1.sites && Mark(h1, t, k) && u in h1.wins && |h1.wins[u]| > 0
            && WinWatched(c1, h1, g, u, |h1.wins[u]| - 1, v, t, k)
  {
    hide Inv, RepliesOk, SiteStep, Record, Clean, LeadSound, CommitSound, Mark, Upto, Broken, HasAcked, PagesSourced,
         SolicitsNoted, WinsNoted, Fresher, Describes;
    var step, u := FinishElection(n), c.sites[n].node.term;
    var c1, h1 := Next(c, step), Record(c, h, step);
    var e := Upto(h, t, k);
    RecordContinues(c, h, step);
    MarkStays(h, h1, t, k);
    WinShape(c, h, n);
    var i := |h1.wins[u]| - 1;
    assert Watched(c, h, g, v, t, k);
    if t < u && v in h1.wins[u][i].quorum && Vouches(c1, h1, v, t, k) {
      WonVouching(c, h, n, v, t, k);
      BallotOfVoter(c, h, g, n, v);
      if !SightHas(g, u, n, v, e) {
        assert Broken(h, g, t, e, u - 1) || Broken(h, g, t, e, u);
        BrokenEarlier(h, g, h1, t, e, u);
      }
    }
  }

  /** Only a proposal makes a new entry to vouch for. */
  lemma NewMark(c: Cluster, h: History, step: Step, t: int, k: int)
    requires Inv(c, h) && step.n in c.sites && Enabled(c, step)
    requires Mark(Record(c, h, step), t, k) && !Mark(h, t, k)
    ensures step.Propose? && t == c.sites[step.n].node.term && k == |c.sites[step.n].node.log| + 1
  {
    hide Inv, ConcludeElection;
    if step.Propose? {
      var log := c.sites[step.n].node.log;
      LeaderLogIsHistory(c, h, step.n);
      HeldLogsAreSourced(c, h, step.n, log);
      assert k <= |log| ==> SourcedAt(h.logs, log, k - 1);
    }
  }

  lemma AckWithin(c: Cluster, g: Chronicle, n: NodeId, v: NodeId, req: AppendRequest)
    requires n in c.sites && c.sites[n].node.role == Leader && LeadSound(c, g, n)
    requires v in c.sites && HasAcked(c, v, req) && req.leader == n && req.term == c.sites[n].node.term
    ensures R.EndOf(req) <= |c.sites[n].node.log|
  {
    assert AckSound(c, n, v, req);
  }

  /** Nobody but its creator vouches for an entry just created. */
  lemma OnlyCreatorVouches(c: Cluster, h: History, g: Chronicle, step: Step, v: NodeId)
    requires Sane(c, h, g, step) && step.Propose? && v in c.sites && v in Next(c, step).sites
    requires Vouches(Next(c, step), Record(c, h, step), v, c.sites[step.n].node.term, |c.sites[step.n].node.log| + 1)
    ensures v == step.n && LastWinner(h, c.sites[step.n].node.term, v)
  {
    hide Inv, RepliesOk, Noted, AllWatched, CommitSound, HasAcked;
    var n, h1, c1 := step.n, Record(c, h, step), Next(c, step);
    var t, k := c.sites[n].node.term, |c.sites[n].node.log| + 1;
    LeaderLogIsHistory(c, h, n);
    NameOf(c, h, n);
    assert h1.wins == h.wins && LastWinner(h, t, n);
    if AckedUpTo(c1, h1, v, t, k) {
      var req :| HasAcked(c1, v, req) && req.term == t && LastWinner(h1, t, req.leader) && R.EndOf(req) >= k;
      NewAcks(c, step, v, req);
      AckWithin(c, g, n, v, req);
    }
  }

  lemma FreshMarkWatched(c: Cluster, h: History, g: Chronicle, step: Step, v: NodeId)
    requires Sane(c, h, g, step) && step.Propose? && v in c.sites
    requires Mark(Record(c, h, step), c.sites[step.n].node.term, |c.sites[step.n].node.log| + 1)
    ensures var (t, k) := (c.sites[step.n].node.term, |c.sites[step.n].node.log| + 1);
            v in Next(c, step).sites && Watched(Next(c, step), Record(c, h, step), g, v, t, k)
  {
    hide Inv, RepliesOk, AllWatched, CommitSound, Vouches, LeadSound, PagesSourced, SolicitsNoted, WinsNoted, Fresher,
         Describes, Broken;
    var n, h1, c1 := step.n, Record(c, h, step), Next(c, step);
    var t, k := c.sites[n].node.term, |c.sites[n].node.log| + 1;
    if Vouches(c1, h1, v, t, k) {
      OnlyCreatorVouches(c, h, g, step, v);
      assert SiteNoted(n, c.sites[n], c.net, g);
    }
  }

  lemma FreshMarkUnelected(c: Cluster, h: History, g: Chronicle, step: Step, u: int, i: int, v: NodeId)
    requires Sane(c, h, g, step) && step.Propose? && v in c.sites && u in h.wins && 0 <= i < |h.wins[u]|
    requires Mark(Record(c, h, step), c.sites[step.n].node.term, |c.sites[step.n].node.log| + 1)
    ensures var (t, k) := (c.sites[step.n].node.term, |c.sites[step.n].node.log| + 1);
            v in Next(c, step).sites && u in Record(c, h, step).wins && i < |Record(c, h, step).wins[u]|
            && WinWatched(Next(c, step), Record(c, h, step), g, u, i, v, t, k)
  {
    hide Inv, RepliesOk, AllWatched, CommitSound, Vouches, LeadSound, Noted, Mark, BrokenBefore, SightHas;
    var n, h1, c1 := step.n, Record(c, h, step), Next(c, step);
    var t, k := c.sites[n].node.term, |c.sites[n].node.log| + 1;
    if Vouches(c1, h1, v, t, k) {
      OnlyCreatorVouches(c, h, g, step, v);
      if v in h.wins[u][i].quorum { QuorumTerm(c, h, u, i, v); }
    }
  }

  /** The elections recorded after a step: those before it, and the one just won. */
  lemma WinsAfter(c: Cluster, h: History, step: Step, u: int, i: int)
    requires Inv(c, h) && step.n in c.sites && Enabled(c, step)
    requires u in Record(c, h, step).wins && 0 <= i < |Record(c, h, step).wins[u]|
    ensures (u in h.wins && i < |h.wins[u]|)
            || (step.FinishElection? && Winning(c, step.n) && u == c.sites[step.n].node.term
                && i == |Record(c, h, step).wins[u]| - 1)
  {
    hide Inv, ConcludeElection;
    if step.FinishElection? && Winning(c, step.n) { WinShape(c, h, step.n); }
  }

  lemma SaneInv(c: Cluster, h: History, g: Chronicle, step: Step)
    requires Sane(c, h, g, step)
    ensures Inv(c, h) && RepliesOk(c) && Noted(c, h, g)
  {
    hide Inv, RepliesOk, Noted, AllWatched, LeadSound, CommitSound, Enabled, Clean, Orderly;
  }

  lemma EveryoneWatched(c: Cluster, h: History, g: Chronicle, step: Step, t: int, k: int, v: NodeId)
    requires Sane(c, h, g, step) && v in Next(c, step).sites && Mark(Record(c, h, step), t, k)
    ensures Watched(Next(c, step), Record(c, h, step), Note(c, g, step), v, t, k)
  {
    hide Good, Record, Watched, Mark, SiteStep, Clean;
    if !Mark(h, t, k) {
      SaneInv(c, h, g, step);
      NewMark(c, h, step, t, k);
      FreshMarkWatched(c, h, g, step, v);
    } else if v == step.n {
      OwnWatched(c, h, g, step, t, k);
    } else {
      BystanderWatched(c, h, g, step, v, t, k);
    }
  }

  lemma EveryWinWatched(c: Cluster, h: History, g: Chronicle, step: Step, u: int, i: int, v: NodeId, t: int, k: int)
    requires Sane(c, h, g, step) && v in Next(c, step).sites && Mark(Record(c, h, step), t, k)
    requires u in Record(c, h, step).wins && 0 <= i < |Record(c, h, step).wins[u]|
    ensures WinWatched(Next(c, step), Record(c, h, step), Note(c, g, step), u, i, v, t, k)
  {
    hide Good, Record, WinWatched, Mark, SiteStep, Clean;
    SaneInv(c, h, g, step);
    WinsAfter(c, h, step, u, i);
    if !Mark(h, t, k) {
      NewMark(c, h, step, t, k);
      FreshMarkUnelected(c, h, g, step, u, i, v);
    } else if u in h.wins && i < |h.wins[u]| {
      OldWinWatched(c, h, g, step, u, i, v, t, k);
    } else {
      NewWinWatched(c, h, g, step.n, v, t, k);
    }
  }

  lemma StepKeepsWatch(c: Cluster, h: History, g: Chronicle, step: Step)
    requires Sane(c, h, g, step)
    ensures AllWatched(Next(c, step), Record(c, h, step), Note(c, g, step))
  {
    hide Good, Next, Record, Note, Watched, WinWatched, Mark, Clean;
    var c1, h1, g1 := Next(c, step), Record(c, h, step), Note(c, g, step);
    forall t, k, v | v in c1.sites && Mark(h1, t, k) ensures Watched(c1, h1, g1, v, t, k) {
      EveryoneWatched(c, h, g, step, t, k, v);
    }
    forall t, k, v, u, i | v in c1.sites && Mark(h1, t, k) && u in h1.wins && 0 <= i < |h1.wins[u]|
      ensures WinWatched(c1, h1, g1, u, i, v, t, k)
    {
      EveryWinWatched(c, h, g, step, u, i, v, t, k);
    }
  }
}
