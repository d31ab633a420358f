/** A second record of a run, kept for leader completeness: the log each machine
    campaigned with, and the log each machine held when it cast a vote. A winner's
    campaign log is the log it was crowned with. */
module Chronicle {
  import opened Basics
  import opened Commands
  import opened RaftNode
  import opened LeaderLogic
  import opened Cluster
  import opened ClusterInvariant
  import opened ClusterSteps
  import opened ClusterSafety

  /** `asks[(t, n)]` is the log `n` campaigned with in term `t`; `ballots[(v, t)]` is
      the log `v` held when it first granted a vote in term `t`. */
  datatype Chronicle = Chronicle(asks: map<(int, NodeId), seq<Entry>>, ballots: map<(NodeId, int), seq<Entry>>)

  const BLANK_PAGES := Chronicle(map[], map[])

  /** How a step extends the chronicle. */
  ghost function Note(c: Cluster, g: Chronicle, step: Step): Chronicle
    requires Enabled(c, step)
  {
    var s := c.sites[step.n].node;
    match step
    case Timeout(n) => g.(asks := g.asks[(s.term + 1, n) := s.log])
    case ReceiveVote(n, req) =>
      if DecideVote(s, req).1.granted && (n, req.term) !in g.ballots
      then g.(ballots := g.ballots[(n, req.term) := s.log])
      else g
    case _ => g
  }

  function EndTerm(log: seq<Entry>): int { if log == [] then 0 else log[|log| - 1].term }

  ghost predicate Describes(req: VoteRequest, log: seq<Entry>) {
    req.lastLogIndex == |log| && req.lastLogTerm == EndTerm(log)
  }

  /** The comparison of section 5.4.1 of the Raft paper. */
  ghost predicate Fresher(a: seq<Entry>, b: seq<Entry>) {
    EndTerm(a) > EndTerm(b) || (EndTerm(a) == EndTerm(b) && |a| >= |b|)
  }

  // ---- what the chronicle keeps ----

  ghost predicate VotesNoted(n: NodeId, s: Site, net: set<Message>, g: Chronicle) {
    forall u, d :: Cast(n, s, net, u, d) ==>
      (n, u) in g.ballots && (u, d) in g.asks && Fresher(g.asks[(u, d)], g.ballots[(n, u)])
  }

  ghost predicate RoleNoted(n: NodeId, s: Site, g: Chronicle) {
    && (!s.campaign.Idle? ==>
          (s.campaign.req.term, n) in g.asks && Describes(s.campaign.req, g.asks[(s.campaign.req.term, n)]))
    && (s.node.role != Follower ==> (s.node.term, n) in g.asks && g.asks[(s.node.term, n)] <= s.node.log)
    && (s.node.role == Candidate ==> s.node.log == g.asks[(s.node.term, n)])
    && (s.node.role == Leader ==>
          forall i | |g.asks[(s.node.term, n)]| <= i < |s.node.log| :: s.node.log[i].term == s.node.term)
  }

  ghost predicate PagesReached(n: NodeId, s: Site, g: Chronicle) {
    && (forall u :: (u, n) in g.asks ==> u <= s.node.term)
    && (forall u :: (n, u) in g.ballots ==> u <= s.node.term)
  }

  /** A vote cast in the current term is still the machine's vote. */
  ghost predicate BallotStands(n: NodeId, s: Site, g: Chronicle) {
    (n, s.node.term) in g.ballots ==>
      && s.node.role == Follower && s.node.votedFor.Some? && s.node.votedFor.value != n
      && (s.node.term, s.node.votedFor.value) in g.asks
      && Fresher(g.asks[(s.node.term, s.node.votedFor.value)], g.ballots[(n, s.node.term)])
  }

  ghost predicate SiteNoted(n: NodeId, s: Site, net: set<Message>, g: Chronicle) {
    VotesNoted(n, s, net, g) && RoleNoted(n, s, g) && PagesReached(n, s, g) && BallotStands(n, s, g)
  }

  ghost predicate PagesSourced(h: History, g: Chronicle) {
    && (forall k | k in g.asks :: Sourced(h.logs, g.asks[k]) && TermsUpTo(g.asks[k], k.0 - 1))
    && (forall k | k in g.ballots :: Sourced(h.logs, g.ballots[k]))
  }

  ghost predicate SolicitsNoted(net: set<Message>, g: Chronicle) {
    forall req :: Solicit(req) in net ==>
      (req.term, req.candidate) in g.asks && Describes(req, g.asks[(req.term, req.candidate)])
  }

  ghost function LastWin(h: History, u: int): NodeId
    requires u in h.wins && |h.wins[u]| > 0
  {
    h.wins[u][|h.wins[u]| - 1].leader
  }

  /** Every winner campaigned; and a term's log grows out of its last winner's. */
  ghost predicate WinsNoted(h: History, g: Chronicle) {
    && (forall u | u in h.wins :: forall i | 0 <= i < |h.wins[u]| :: (u, h.wins[u][i].leader) in g.asks)
    && (forall u | u in h.logs ::
          u in h.wins && |h.wins[u]| > 0 && (u, LastWin(h, u)) in g.asks && g.asks[(u, LastWin(h, u))] <= h.logs[u])
  }

  ghost predicate Noted(c: Cluster, h: History, g: Chronicle) {
    && (forall n | n in c.sites :: SiteNoted(n, c.sites[n], c.net, g))
    && PagesSourced(h, g) && SolicitsNoted(c.net, g) && WinsNoted(h, g)
  }

  // ---- steps ----

  lemma FreshIsFresher(s: NodeState, req: VoteRequest, log: seq<Entry>)
    requires s.base == 0 && s.baseTerm == 0 && Describes(req, log)
    ensures LogFresh(s, req) <==> Fresher(log, s.log)
  {}

  lemma GrantedIsFresh(s: NodeState, req: VoteRequest)
    ensures DecideVote(s, req).1.granted ==> LogFresh(s, req) && req.term >= s.term
    ensures DecideVote(s, req).0.log == s.log
  {}

  ghost function BallotNoted(g: Chronicle, n: NodeId, s: NodeState, req: VoteRequest): Chronicle {
    if DecideVote(s, req).1.granted && (n, req.term) !in g.ballots
    then g.(ballots := g.ballots[(n, req.term) := s.log])
    else g
  }

  lemma VoteKeepsNotes(members: set<NodeId>, n: NodeId, s: Site, net: set<Message>, h: History, g: Chronicle,
                       req: VoteRequest)
    requires SiteOk(members, n, s, net, h) && SiteNoted(n, s, net, g) && req.candidate != n
    requires (req.term, req.candidate) in g.asks && Describes(req, g.asks[(req.term, req.candidate)])
    ensures var (s1, sent) := DoReceiveVote(s, req); SiteNoted(n, s1, net + sent, BallotNoted(g, n, s.node, req))
  {
    hide LastIndex, LastTerm, LogFresh, EndTerm, Sourced, TermsUpTo, Fresher, Describes;
    var (s1, sent) := DoReceiveVote(s, req);
    var g1 := BallotNoted(g, n, s.node, req);
    GrantedIsFresh(s.node, req);
    FreshIsFresher(s.node, req, g.asks[(req.term, req.candidate)]);
    var granted := DecideVote(s.node, req).1.granted;
    assert granted ==> (n, req.term) in g1.ballots && Fresher(g1.asks[(req.term, req.candidate)], g1.ballots[(n, req.term)]);
    forall u, d | Cast(n, s1, net + sent, u, d)
      ensures (n, u) in g1.ballots && (u, d) in g1.asks && Fresher(g1.asks[(u, d)], g1.ballots[(n, u)])
    {
      assert Cast(n, s, net, u, d) || (u == req.term && d == req.candidate && granted);
    }
  }

  /** A change that campaigns for nothing and votes for nobody new. */
  ghost predicate Subdued(n: NodeId, s: Site, net: set<Message>, s1: Site, net1: set<Message>) {
    && s1.node.term >= s.node.term
    && (s1.campaign.Idle? || (!s.campaign.Idle? && s1.campaign.req == s.campaign.req))
    && (s1.node.role == Follower
        || (s1.node.role == s.node.role && s1.node.term == s.node.term && s1.node.log == s.node.log))
    && (s1.node.term == s.node.term && s.node.role == Follower ==>
          s1.node.role == Follower && (s1.node.votedFor == s.node.votedFor || s.node.votedFor in {None, Some(n)}))
    && (forall u, d :: Cast(n, s1, net1, u, d) ==> Cast(n, s, net, u, d))
  }

  lemma SubduedKeepsNotes(n: NodeId, s: Site, net: set<Message>, g: Chronicle, s1: Site, net1: set<Message>)
    requires SiteNoted(n, s, net, g) && Subdued(n, s, net, s1, net1)
    ensures SiteNoted(n, s1, net1, g)
  {
    hide Fresher, Describes;
  }

  ghost predicate Plain(c: Cluster, step: Step)
    requires Enabled(c, step)
  {
    && !step.Timeout? && !step.ReceiveVote? && !step.Propose? && !step.Crash?
    && (step.FinishElection? ==> !Winning(c, step.n))
  }

  lemma NameOf(c: Cluster, h: History, n: NodeId)
    requires Inv(c, h) && n in c.sites
    ensures c.sites[n].node.id == n && c.sites[n].node.base == 0 && c.sites[n].node.baseTerm == 0
  {
    assert SiteOk(c.sites.Keys, n, c.sites[n], c.net, h);
  }

  lemma PlainIsSubdued(c: Cluster, h: History, step: Step)
    requires Inv(c, h) && Enabled(c, step) && Clean(c, step) && Plain(c, step)
    ensures var (s1, sent) := SiteStep(c, step); Subdued(step.n, c.sites[step.n], c.net, s1, c.net + sent)
  {
    hide LastIndex, LastTerm, TermAt, Merge, Merged, Majority, BuildAppend, OnAppendReply, FreshRepl, Inv, DecideVote;
    var n, s := step.n, c.sites[step.n];
    NameOf(c, h, n);
    var (s1, sent) := SiteStep(c, step);
    if step.ReceiveAppendReply? { ReplyTouchesLittle(s.node, ReplOf(s), step.from, s.calls[step.from], step.aresp); }
    forall u, d | Cast(n, s1, c.net + sent, u, d) ensures Cast(n, s, c.net, u, d) {
      if step.AnswerVote? && Granted({} + sent, n, u, d) { assert PendingVote(d, u) in s.pending; }
    }
  }

  lemma TimeoutKeepsNotes(n: NodeId, s: Site, net: set<Message>, g: Chronicle)
    requires SiteNoted(n, s, net, g) && s.node.base == 0 && s.node.baseTerm == 0 && s.node.id == n
    ensures SiteNoted(n, DoTimeout(s).0, net, g.(asks := g.asks[(s.node.term + 1, n) := s.node.log]))
  {
    var s1 := DoTimeout(s).0;
    assert forall u, d :: Cast(n, s1, net, u, d) ==> Cast(n, s, net, u, d);
  }

  lemma ProposeKeepsNotes(n: NodeId, s: Site, net: set<Message>, g: Chronicle, cmd: Command)
    requires SiteNoted(n, s, net, g) && s.node.role == Leader
    ensures SiteNoted(n, s.(node := AppendOwn(s.node, cmd)), net, g)
  {
    hide Fresher, Describes;
    var s1 := s.(node := AppendOwn(s.node, cmd));
    assert forall u, d :: Cast(n, s1, net, u, d) ==> Cast(n, s, net, u, d);
  }

  lemma CrownKeepsNotes(n: NodeId, s: Site, net: set<Message>, g: Chronicle)
    requires SiteNoted(n, s, net, g) && s.node.role == Candidate
    ensures SiteNoted(n, s.(node := BecomeLeader(s.node), campaign := Idle), net, g)
  {
    hide Fresher, Describes;
    var s1 := s.(node := BecomeLeader(s.node), campaign := Idle);
    assert forall u, d :: Cast(n, s1, net, u, d) ==> Cast(n, s, net, u, d);
  }

  /** The chronicle grows by pages about `n`. */
  ghost predicate Grows(g: Chronicle, g1: Chronicle, n: NodeId) {
    && (forall k | k in g.asks :: k in g1.asks && g1.asks[k] == g.asks[k])
    && (forall k | k in g.ballots :: k in g1.ballots && g1.ballots[k] == g.ballots[k])
    && (forall k | k in g1.asks && k !in g.asks :: k.1 == n)
    && (forall k | k in g1.ballots && k !in g.ballots :: k.0 == n)
  }

  lemma NoteGrows(c: Cluster, h: History, g: Chronicle, step: Step)
    requires Noted(c, h, g) && Enabled(c, step)
    ensures Grows(g, Note(c, g, step), step.n)
  {
    hide Fresher, Describes, DecideVote;
    assert SiteNoted(step.n, c.sites[step.n], c.net, g);
  }

  lemma BystanderNoted(m: NodeId, s: Site, net: set<Message>, sent: set<Message>, g: Chronicle, g1: Chronicle,
                       n: NodeId)
    requires SiteNoted(m, s, net, g) && Grows(g, g1, n) && m != n
    requires forall x | x in sent :: x.VoteReply? ==> x.voter == n
    ensures SiteNoted(m, s, net + sent, g1)
  {
    hide Fresher, Describes;
    assert forall u, d :: Cast(m, s, net + sent, u, d) ==> Cast(m, s, net, u, d);
  }

  /** Only the machine that takes the step votes. */
  lemma OwnVotes(c: Cluster, h: History, step: Step)
    requires Inv(c, h) && Enabled(c, step)
    ensures forall x | x in SiteStep(c, step).1 :: x.VoteReply? ==> x.voter == step.n
  {
    hide LastIndex, LastTerm, TermAt, Merge, Merged, Majority, BuildAppend, OnAppendReply, FreshRepl, Inv, LogFresh;
    NameOf(c, h, step.n);
  }

  lemma SiteIsOk(c: Cluster, h: History, n: NodeId)
    requires Inv(c, h) && n in c.sites
    ensures SiteOk(c.sites.Keys, n, c.sites[n], c.net, h)
  {}

  lemma WinSite(c: Cluster, h: History, n: NodeId)
    requires Winning(c, n)
    ensures var s := c.sites[n];
            && s.node.role == Candidate && s.node.term == s.campaign.req.term
            && DoFinishElection(s).0 == s.(node := BecomeLeader(s.node), campaign := Idle) && DoFinishElection(s).1 == {}
  {}

  lemma SiteKeepsNotes(c: Cluster, h: History, g: Chronicle, step: Step)
    requires Inv(c, h) && Noted(c, h, g) && Enabled(c, step) && Clean(c, step) && !step.Crash?
    ensures var (s1, sent) := SiteStep(c, step); SiteNoted(step.n, s1, c.net + sent, Note(c, g, step))
  {
    hide Inv, SiteNoted, DecideVote, ConcludeElection, OnAppendReply, DecideAppend, Describes, FreshRepl, BuildAppend;
    var n, s := step.n, c.sites[step.n];
    var (s1, sent) := SiteStep(c, step);
    assert SiteNoted(n, s, c.net, g);
    NameOf(c, h, n);
    if step.Timeout? {
      TimeoutKeepsNotes(n, s, c.net, g);
      assert c.net + sent == c.net;
    } else if step.ReceiveVote? {
      SiteIsOk(c, h, n);
      VoteKeepsNotes(c.sites.Keys, n, s, c.net, h, g, step.vreq);
    } else if step.Propose? {
      ProposeKeepsNotes(n, s, c.net, g, step.cmd);
      assert c.net + sent == c.net;
    } else if step.FinishElection? && Winning(c, n) {
      WinSite(c, h, n);
      CrownKeepsNotes(n, s, c.net, g);
      assert c.net + sent == c.net;
    } else {
      PlainIsSubdued(c, h, step);
      SubduedKeepsNotes(n, s, c.net, g, s1, c.net + sent);
    }
  }

  lemma PagesStaySourced(c: Cluster, h: History, g: Chronicle, step: Step)
    requires Inv(c, h) && Noted(c, h, g) && Enabled(c, step)
    ensures PagesSourced(Record(c, h, step), Note(c, g, step))
  {
    hide Sourced, DecideVote, Inv, NetOk, SiteNoted, ConcludeElection;
    var s, h1, g1 := c.sites[step.n], Record(c, h, step), Note(c, g, step);
    HeldLogsAreSourced(c, h, step.n, s.node.log);
    if step.Propose? {
      var longer := AppendOwn(s.node, step.cmd).log;
      LeaderLogIsHistory(c, h, step.n);
      forall k | k in g1.asks ensures Sourced(h1.logs, g1.asks[k]) && TermsUpTo(g1.asks[k], k.0 - 1) {
        SourcedMonotone(h.logs, s.node.term, longer, g.asks[k]);
      }
      forall k | k in g1.ballots ensures Sourced(h1.logs, g1.ballots[k]) {
        SourcedMonotone(h.logs, s.node.term, longer, g.ballots[k]);
      }
    }
  }

  lemma CampaignIsOwn(c: Cluster, h: History, n: NodeId)
    requires Inv(c, h) && n in c.sites && !c.sites[n].campaign.Idle?
    ensures c.sites[n].campaign.req.candidate == n
  {
    assert SiteOk(c.sites.Keys, n, c.sites[n], c.net, h);
  }

  lemma SolicitsStayNoted(c: Cluster, h: History, g: Chronicle, step: Step)
    requires Inv(c, h) && Noted(c, h, g) && Enabled(c, step)
    ensures SolicitsNoted(Next(c, step).net, Note(c, g, step))
  {
    hide Describes, DecideVote, DecideAppend, OnAppendReply, FreshRepl, BuildAppend, ConcludeElection, PagesSourced,
         WinsNoted, Inv;
    assert SiteNoted(step.n, c.sites[step.n], c.net, g);
    NoteGrows(c, h, g, step);
    if step.SaveCampaign? { CampaignIsOwn(c, h, step.n); }
    assert forall req :: Solicit(req) in SiteStep(c, step).1 ==> step.SaveCampaign? && req == c.sites[step.n].campaign.req;
  }

  lemma NewWinNoted(c: Cluster, h: History, g: Chronicle, n: NodeId)
    requires Inv(c, h) && Noted(c, h, g) && Winning(c, n) && Enabled(c, FinishElection(n))
    ensures WinsNoted(Record(c, h, FinishElection(n)), g)
  {
    hide Inv, PagesSourced, SolicitsNoted, Describes, Fresher, ConcludeElection, Record;
    WinShape(c, h, n);
    TermStillOpen(c, h, n);
    assert SiteNoted(n, c.sites[n], c.net, g);
  }

  lemma NewEntryNoted(c: Cluster, h: History, g: Chronicle, step: Step)
    requires Inv(c, h) && Noted(c, h, g) && step.Propose? && Enabled(c, step)
    ensures WinsNoted(Record(c, h, step), g)
  {
    hide Inv, PagesSourced, SolicitsNoted, Describes, Fresher;
    LeaderLogIsHistory(c, h, step.n);
    assert SiteNoted(step.n, c.sites[step.n], c.net, g);
  }

  lemma MorePagesNoted(h: History, g: Chronicle, g1: Chronicle, n: NodeId)
    requires WinsNoted(h, g) && Grows(g, g1, n)
    ensures WinsNoted(h, g1)
  {}

  lemma WinsStayNoted(c: Cluster, h: History, g: Chronicle, step: Step)
    requires Inv(c, h) && Noted(c, h, g) && Enabled(c, step)
    ensures WinsNoted(Record(c, h, step), Note(c, g, step))
  {
    hide Inv, PagesSourced, SolicitsNoted, SiteNoted, WinsNoted, DecideVote, ConcludeElection;
    NoteGrows(c, h, g, step);
    if step.FinishElection? && Winning(c, step.n) {
      NewWinNoted(c, h, g, step.n);
    } else if step.Propose? {
      NewEntryNoted(c, h, g, step);
    } else {
      MorePagesNoted(h, g, Note(c, g, step), step.n);
    }
  }

  /** The chronicle stays right. */
  lemma StepKeepsNotes(c: Cluster, h: History, g: Chronicle, step: Step)
    requires Inv(c, h) && Noted(c, h, g) && Enabled(c, step) && Clean(c, step) && !step.Crash?
    ensures Noted(Next(c, step), Record(c, h, step), Note(c, g, step))
  {
    hide Inv, SiteNoted, SiteStep, Record, Note, PagesSourced, SolicitsNoted, WinsNoted, Clean;
    var c1, g1 := Next(c, step), Note(c, g, step);
    var (s1, sent) := SiteStep(c, step);
    OwnVotes(c, h, step);
    SiteKeepsNotes(c, h, g, step);
    NoteGrows(c, h, g, step);
    forall m | m in c1.sites ensures SiteNoted(m, c1.sites[m], c1.net, g1) {
      if m != step.n { BystanderNoted(m, c.sites[m], c.net, sent, g, g1, step.n); }
    }
    PagesStaySourced(c, h, g, step);
    SolicitsStayNoted(c, h, g, step);
    WinsStayNoted(c, h, g, step);
  }

  lemma InitialNotes(c: Cluster)
    requires Initial(c)
    ensures Noted(c, NO_HISTORY, BLANK_PAGES)
  {
    forall n | n in c.sites ensures SiteNoted(n, c.sites[n], c.net, BLANK_PAGES) {
      assert forall u, d :: !Cast(n, c.sites[n], c.net, u, d);
    }
  }
}
