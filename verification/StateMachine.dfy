/** The two theorems replication is for, over every orderly run: every later leader
    holds what any machine has committed, and no two machines ever commit different
    entries at the same index. */
module StateMachine {
  import opened Basics
  import opened Commands
  import opened RaftNode
  import opened MergeExactness
  import opened Commit
  import opened LeaderLogic
  import opened Cluster
  import opened ClusterInvariant
  import opened ClusterSteps
  import opened ClusterSafety
  import opened ClusterCommit
  import opened Chronicle
  import opened Completeness
  import opened Stewardship
  import opened Upkeep
  import R = Replication

  // ---- accepting a request ----

  /** The new commit index is the leader's, cut to what was sent. */
  lemma CommitFromLeader(c: Cluster, h: History, l: NodeState, s1: NodeState)
    requires CommitSound(c, h, l) && 0 <= s1.commitIndex <= Min(l.commitIndex, |s1.log|) && s1.term >= l.term
    requires s1.log <= l.log
    ensures CommitSound(c, h, s1)
  {
    hide Settled;
    if s1.commitIndex > 0 {
      var t, k :| Backs(c, h, t, k, l);
      var i := s1.commitIndex;
      SettledIsMarked(c, h, t, k);
      assert h.logs[t][..i] == h.logs[t][..l.commitIndex][..i] == l.log[..l.commitIndex][..i] == l.log[..i] == s1.log[..i];
      assert Backs(c, h, t, k, s1);
    }
  }

  /** What the follower had committed lies within what it now holds. */
  lemma CommitSurvivesRequest(c: Cluster, h: History, g: Chronicle, step: Step, t: int, k: int)
    requires Sane(c, h, g, step) && step.ReceiveAppend? && DecideAppend(c.sites[step.n].node, step.areq).resp.success
    requires CommitSound(c, h, c.sites[step.n].node) && c.sites[step.n].node.commitIndex > 0
    requires Backs(c, h, t, k, c.sites[step.n].node)
    ensures var (ci, log1) := (c.sites[step.n].node.commitIndex, DecideAppend(c.sites[step.n].node, step.areq).state.log);
            ci <= |log1| && h.logs[t][..ci] == log1[..ci]
  {
    hide Inv, RepliesOk, Noted, AllWatched, Clean, DecideAppend, Settled, Enabled;
    var p, req, f := step.n, step.areq, c.sites[step.n].node;
    var n, ci := req.leader, f.commitIndex;
    var l := c.sites[n];
    PromptTake(c, h, g, p, req);
    LeaderInRecords(c, h, g, n, req.term);
    SettledIsMarked(c, h, t, k);
    if t < req.term {
      CrownHolds(c, h, g, n, req.term, t, k);
      assert h.logs[t][..ci] == Upto(h, t, k)[..ci] == g.asks[(req.term, n)][..ci] == l.node.log[..ci];
    } else {
      assert PeerBehind(c, n, p);
      assert h.logs[t][..ci] == l.node.log[..ci];
    }
  }

  lemma AcceptKeepsCommit(c: Cluster, h: History, g: Chronicle, step: Step)
    requires Sane(c, h, g, step) && step.ReceiveAppend?
    ensures CommitSound(c, h, DecideAppend(c.sites[step.n].node, step.areq).state)
  {
    hide Inv, RepliesOk, Noted, AllWatched, Clean, DecideAppend, Settled, Enabled;
    var p, req, f, out := step.n, step.areq, c.sites[step.n].node, DecideAppend(c.sites[step.n].node, step.areq);
    var l := c.sites[req.leader];
    PromptTake(c, h, g, p, req);
    AcceptCommits(f, req);
    DecideAppendShape(f, req);
    NameOf(c, h, p);
    assert CommitSound(c, h, f) && CommitSound(c, h, l.node);
    if out.state.commitIndex != f.commitIndex {
      assert CallSound(l.node, |g.asks[(req.term, req.leader)]|, req);
      CommitFromLeader(c, h, l.node, out.state);
    } else if f.commitIndex > 0 {
      var t, k :| Backs(c, h, t, k, f);
      if out.resp.success { CommitSurvivesRequest(c, h, g, step, t, k); }
      assert Backs(c, h, t, k, out.state);
    }
  }

  // ---- a leader commits ----

  /** Every peer whose match index reaches an entry of the leader's term said so. */
  lemma ReachersSaid(c: Cluster, h: History, g: Chronicle, n: NodeId, k: int, p: NodeId)
    requires Inv(c, h) && Noted(c, h, g) && n in c.sites && c.sites[n].node.role == Leader && LeadSound(c, g, n)
    requires 0 < k <= |c.sites[n].node.log| && c.sites[n].node.log[k - 1].term == c.sites[n].node.term
    requires p in c.sites[n].node.peers && At(ReplOf(c.sites[n]).matchIndex, p) >= k
    ensures SaidUpTo(c.net, h, p, c.sites[n].node.term, k)
  {
    hide Inv, SolicitsNoted, WinsNoted, SiteNoted, ReplOf, AckSound, PeerBehind, CallsSound;
    var s := c.sites[n];
    var t := s.node.term;
    LeaderInRecords(c, h, g, n, t);
    var crown := g.asks[(t, n)];
    assert TermsUpTo(crown, t - 1);
    assert |crown| < k;
    assert MarkSound(c.net, n, s, |crown|, p);
  }

  lemma LeaderMark(c: Cluster, h: History, n: NodeId, k: int)
    requires Inv(c, h) && n in c.sites && c.sites[n].node.role == Leader
    requires 0 < k <= |c.sites[n].node.log| && c.sites[n].node.log[k - 1].term == c.sites[n].node.term
    ensures Mark(h, c.sites[n].node.term, k) && h.logs[c.sites[n].node.term] == c.sites[n].node.log
  {
    hide Inv;
    var s := c.sites[n].node;
    HeldLogsAreSourced(c, h, n, s.log);
    assert SourcedAt(h.logs, s.log, k - 1);
    LeaderLogIsHistory(c, h, n);
  }

  lemma CountedMajority(members: set<NodeId>, n: NodeId, peers: seq<NodeId>, m: map<NodeId, int>, last: int, k: int)
    returns (q: set<NodeId>)
    requires n in members && PeersOf(members, n, peers) && 2 * Reached([last] + Marks(peers, m), k) > |peers| + 1
    ensures q <= members && 2 * |q| > |members|
    ensures forall p | p in q :: p == n || (p in peers && At(m, p) >= k)
  {
    hide Marks, At;
    PeersAreDistinct(members, n, peers);
    ReachersCounted(peers, m, k);
    assert ([last] + Marks(peers, m))[1..] == Marks(peers, m);
    q := Reachers(peers, m, k) + {n};
  }

  lemma MajorityReached(c: Cluster, h: History, n: NodeId, k: int) returns (q: set<NodeId>)
    requires Inv(c, h) && n in c.sites
    requires 2 * Reached(Matches(c.sites[n].node, ReplOf(c.sites[n])), k) > |c.sites[n].node.peers| + 1
    ensures q <= c.sites.Keys && 2 * |q| > |c.sites|
    ensures forall p | p in q :: p == n || (p in c.sites[n].node.peers && At(ReplOf(c.sites[n]).matchIndex, p) >= k)
  {
    hide Inv, ReplOf, Marks, At, Reached, VotesOk, CampaignOk, WinsOk, LogsOk, OwnerOk;
    SiteIsOk(c, h, n);
    assert |c.sites.Keys| == |c.sites|;
    q := CountedMajority(c.sites.Keys, n, c.sites[n].node.peers, ReplOf(c.sites[n]).matchIndex,
                         LastIndex(c.sites[n].node), k);
  }

  lemma WinnerSays(net: set<Message>, h: History, n: NodeId, t: int, k: int)
    requires LastWinner(h, t, n)
    ensures SaidUpTo(net, h, n, t, k)
  {}

  /** What a leader's match indexes allow it to commit, a majority vouches for. */
  lemma LeaderSettles(c: Cluster, h: History, g: Chronicle, n: NodeId, k: int)
    requires Inv(c, h) && Noted(c, h, g) && n in c.sites && c.sites[n].node.role == Leader && LeadSound(c, g, n)
    requires 0 < k <= |c.sites[n].node.log| && c.sites[n].node.log[k - 1].term == c.sites[n].node.term
    requires 2 * Reached(Matches(c.sites[n].node, ReplOf(c.sites[n])), k) > |c.sites[n].node.peers| + 1
    ensures Settled(c, h, c.sites[n].node.term, k) && h.logs[c.sites[n].node.term] == c.sites[n].node.log
  {
    hide Inv, Noted, LeadSound, ReplOf, Matches, Reached, Mark, SaidUpTo;
    var t := c.sites[n].node.term;
    NameOf(c, h, n);
    LeaderMark(c, h, n, k);
    var q := MajorityReached(c, h, n, k);
    forall p | p in q ensures SaidUpTo(c.net, h, p, t, k) {
      if p != n {
        ReachersSaid(c, h, g, n, k, p);
      } else {
        LeaderInRecords(c, h, g, n, t);
        WinnerSays(c.net, h, n, t, k);
      }
    }
    assert SaidBy(c, h, t, k, q);
  }

  lemma LeaderCommitBacked(c: Cluster, h: History, n: NodeId)
    requires n in c.sites
    requires var s := c.sites[n].node;
             && 0 < s.commitIndex <= |s.log| && Settled(c, h, s.term, s.commitIndex)
             && s.term in h.logs && h.logs[s.term] == s.log
    ensures CommitSound(c, h, c.sites[n].node)
  {
    var s := c.sites[n].node;
    assert Backs(c, h, s.term, s.commitIndex, s);
  }

  lemma SameMatches(s: NodeState, s1: NodeState, r: Repl)
    requires s1.peers == s.peers && LastIndex(s1) == LastIndex(s)
    ensures Matches(s1, r) == Matches(s, r)
  {}

  lemma ReplyKeepsCommit(c: Cluster, h: History, g: Chronicle, step: Step)
    requires Sane(c, h, g, step) && step.ReceiveAppendReply?
    ensures step.n in Next(c, step).sites && CommitSound(Next(c, step), Record(c, h, step), Next(c, step).sites[step.n].node)
  {
    hide Inv, RepliesOk, Noted, AllWatched, Clean, LeadSound, OnAppendReply, Settled, FreshRepl, Reached, Matches;
    var n, s, c1, h1 := step.n, c.sites[step.n], Next(c, step), Record(c, h, step);
    var out := OnAppendReply(s.node, ReplOf(s), step.from, s.calls[step.from], step.aresp);
    var s1 := c1.sites[n];
    assert s1.node == out.state && s1.repl == Some(out.repl);
    NameOf(c, h, n);
    assert CommitSound(c, h, s.node);
    ReplyTouchesLittle(s.node, ReplOf(s), step.from, s.calls[step.from], step.aresp);
    if out.state.commitIndex == s.node.commitIndex {
      BackingStays(c, h, step, s.node, s1.node);
    } else {
      var k := out.state.commitIndex;
      ReplyCommitMoves(s.node, ReplOf(s), step.from, s.calls[step.from], step.aresp);
      StepKeepsInv(c, h, step);
      StepKeepsNotes(c, h, g, step);
      OwnLeads(c, h, g, step);
      SameMatches(s.node, s1.node, out.repl);
      LeaderSettles(c1, h1, Note(c, g, step), n, k);
      LeaderMark(c1, h1, n, k);
      LeaderCommitBacked(c1, h1, n);
    }
  }

  // ---- every commit index stays backed ----

  lemma OwnKeepsCommit(c: Cluster, h: History, g: Chronicle, step: Step)
    requires Sane(c, h, g, step)
    ensures step.n in Next(c, step).sites && CommitSound(Next(c, step), Record(c, h, step), Next(c, step).sites[step.n].node)
  {
    hide Inv, RepliesOk, Noted, AllWatched, Clean, LeadSound, SiteStep, Record, CommitSound;
    var n, s := step.n, c.sites[step.n].node;
    if step.ReceiveAppendReply? {
      ReplyKeepsCommit(c, h, g, step);
    } else if step.ReceiveAppend? {
      AcceptKeepsCommit(c, h, g, step);
      StateAfterAppend(c, step);
      var s1 := SiteStep(c, step).0.node;
      BackingStays(c, h, step, s1, s1);
    } else {
      LogsGrow(c, h, step);
      CommitStaysPut(c, h, step);
      BackingStays(c, h, step, s, SiteStep(c, step).0.node);
    }
  }

  lemma StepKeepsCommits(c: Cluster, h: History, g: Chronicle, step: Step, n: NodeId)
    requires Sane(c, h, g, step) && n in c.sites
    ensures n in Next(c, step).sites && CommitSound(Next(c, step), Record(c, h, step), Next(c, step).sites[n].node)
  {
    hide Inv, RepliesOk, Noted, AllWatched, Clean, LeadSound, SiteStep, Record, CommitSound;
    if n == step.n {
      OwnKeepsCommit(c, h, g, step);
    } else {
      BackingStays(c, h, step, c.sites[n].node, c.sites[n].node);
    }
  }

  lemma StepKeepsGood(c: Cluster, h: History, g: Chronicle, step: Step)
    requires Sane(c, h, g, step)
    ensures Good(Next(c, step), Record(c, h, step), Note(c, g, step))
  {
    hide Inv, RepliesOk, Noted, AllWatched, Clean, LeadSound, SiteStep, Record, CommitSound, Note, Enabled;
    var c1 := Next(c, step);
    NameOf(c, h, step.n);
    StepKeepsInv(c, h, step);
    StepKeepsReplies(c, step);
    StepKeepsNotes(c, h, g, step);
    StepKeepsWatch(c, h, g, step);
    forall n | n in c1.sites
      ensures LeadSound(c1, Note(c, g, step), n) && CommitSound(c1, Record(c, h, step), c1.sites[n].node)
    {
      StepKeepsLeads(c, h, g, step, n);
      StepKeepsCommits(c, h, g, step, n);
    }
  }

  lemma InitialGood(c: Cluster)
    requires Initial(c)
    ensures Good(c, NO_HISTORY, BLANK_PAGES)
  {
    hide Inv, RepliesOk, Noted;
    InitialReplies(c);
    InitialNotes(c);
  }

  // ---- whole runs ----

  /** Whatever was settled is settled still. */
  ghost predicate Lasts(c: Cluster, h: History, c1: Cluster, h1: History) {
    forall t, k :: Settled(c, h, t, k) ==> Settled(c1, h1, t, k) && Upto(h1, t, k) == Upto(h, t, k)
  }

  lemma LastsThroughStep(c: Cluster, h: History, step: Step)
    requires Inv(c, h) && Enabled(c, step)
    ensures Lasts(c, h, Next(c, step), Record(c, h, step))
  {
    hide Inv, Enabled, SaidBy, Mark, Next, Record;
    forall t, k | Settled(c, h, t, k)
      ensures Settled(Next(c, step), Record(c, h, step), t, k) && Upto(Record(c, h, step), t, k) == Upto(h, t, k)
    {
      SettledStays(c, h, step, t, k);
    }
  }

  lemma LastsOn(c: Cluster, h: History, c1: Cluster, h1: History, c2: Cluster, h2: History)
    requires Lasts(c, h, c1, h1) && Lasts(c1, h1, c2, h2)
    ensures Lasts(c, h, c2, h2)
  {
    hide SaidBy, Mark;
  }

  lemma LastsAsIs(c: Cluster, h: History)
    ensures Lasts(c, h, c, h)
  {}

  lemma EnabledSite(c: Cluster, step: Step)
    requires Enabled(c, step)
    ensures step.n in c.sites
  {
    hide Flying, NextFor, ReplOf;
  }

  lemma {:induction false} RunKeepsGood(c: Cluster, h: History, g: Chronicle, steps: seq<Step>)
    returns (h1: History, g1: Chronicle)
    requires Good(c, h, g) && IsOrderlyRun(c, steps)
    ensures IsRun(c, steps) && Good(After(c, steps), h1, g1)
    ensures Lasts(c, h, After(c, steps), h1)
    decreases |steps|
  {
    hide Good, Lasts, Next, Enabled, Clean, Orderly, Record, Note;
    if steps == [] {
      h1, g1 := h, g;
      LastsAsIs(c, h);
    } else {
      var step := steps[0];
      var c1, h2 := Next(c, step), Record(c, h, step);
      EnabledSite(c, step);
      assert Sane(c, h, g, step);
      SaneInv(c, h, g, step);
      StepKeepsGood(c, h, g, step);
      LastsThroughStep(c, h, step);
      h1, g1 := RunKeepsGood(c1, h2, Note(c, g, step), steps[1..]);
      LastsOn(c, h, c1, h2, After(c, steps), h1);
    }
  }

  // ---- the theorems ----

  /** The committed prefix of a node, wherever it is read. */
  function Committed(s: NodeState): seq<Entry>
    requires 0 <= s.commitIndex <= |s.log|
  {
    s.log[..s.commitIndex]
  }

  /** A commit made before `h1` still has its backing. */
  lemma BackingLasts(c: Cluster, h: History, c1: Cluster, h1: History, s: NodeState)
    requires CommitSound(c, h, s) && Lasts(c, h, c1, h1)
    ensures CommitSound(c1, h1, s)
  {
    hide Settled;
    if s.commitIndex > 0 {
      var t, k :| Backs(c, h, t, k, s);
      SettledIsMarked(c, h, t, k);
      SettledIsMarked(c1, h1, t, k);
      PrefixOfUpto(h, h1, t, k, s.commitIndex);
      assert Backs(c1, h1, t, k, s);
    }
  }

  lemma LeaderHolds(c: Cluster, h: History, g: Chronicle, s: NodeState, n: NodeId)
    requires Good(c, h, g) && CommitSound(c, h, s)
    requires n in c.sites && c.sites[n].node.role == Leader && c.sites[n].node.term >= s.term
    ensures Committed(s) <= c.sites[n].node.log
  {
    hide Inv, Noted, AllWatched, RepliesOk, LeadSound, Settled;
    var l := c.sites[n].node;
    if s.commitIndex > 0 {
      var t, k :| Backs(c, h, t, k, s);
      SettledIsMarked(c, h, t, k);
      LeaderInRecords(c, h, g, n, l.term);
      if t < l.term {
        CrownHolds(c, h, g, n, l.term, t, k);
        assert Committed(s) == Upto(h, t, k)[..s.commitIndex];
      } else {
        assert Committed(s) == h.logs[t][..s.commitIndex];
      }
    }
  }

  lemma GoodCommits(c: Cluster, h: History, g: Chronicle, n: NodeId)
    requires Good(c, h, g) && n in c.sites
    ensures CommitSound(c, h, c.sites[n].node) && 0 <= c.sites[n].node.commitIndex <= |c.sites[n].node.log|
  {
    hide Inv, Noted, AllWatched, RepliesOk, LeadSound, Settled;
  }

  /** Leader completeness. At any point of an orderly run take any machine `v`, and
      at any later point any leader `n` whose term is at least the term `v` had:
      the leader's log begins with everything `v` had committed. */
  lemma LeaderCompleteness(c: Cluster, before: seq<Step>, k: Cluster, v: NodeId, after: seq<Step>, n: NodeId)
    requires Initial(c) && IsOrderlyRun(c, before) && IsRun(c, before) && After(c, before) == k
    requires IsOrderlyRun(k, after)
    requires v in k.sites
    ensures IsRun(k, after) && 0 <= k.sites[v].node.commitIndex <= |k.sites[v].node.log|
    ensures var (s, r) := (k.sites[v].node, After(k, after).sites);
            n in r && r[n].node.role == Leader && r[n].node.term >= s.term ==> Committed(s) <= r[n].node.log
  {
    hide Good, IsOrderlyRun, CommitSound, Lasts, Initial, After;
    InitialGood(c);
    var h, g := RunKeepsGood(c, NO_HISTORY, BLANK_PAGES, before);
    var h1, g1 := RunKeepsGood(k, h, g, after);
    GoodCommits(k, h, g, v);
    var r := After(k, after);
    if n in r.sites && r.sites[n].node.role == Leader && r.sites[n].node.term >= k.sites[v].node.term {
      BackingLasts(k, h, r, h1, k.sites[v].node);
      LeaderHolds(r, h1, g1, k.sites[v].node, n);
    }
  }

  /** What is settled in an earlier term begins the log of every later term. */
  lemma LaterTermHolds(c: Cluster, h: History, g: Chronicle, t: int, k: int, u: int)
    requires Good(c, h, g) && Settled(c, h, t, k) && u in h.logs && t < u
    ensures Mark(h, t, k) && Upto(h, t, k) <= h.logs[u]
  {
    hide Inv, AllWatched, RepliesOk, LeadSound, CommitSound, Settled, PagesSourced, SolicitsNoted, SiteNoted;
    SettledIsMarked(c, h, t, k);
    assert u in h.wins && |h.wins[u]| > 0;
    EveryWinnerHolds(c, h, g, t, k, u, |h.wins[u]| - 1);
  }

  ghost predicate AgreeUpTo(a: seq<Entry>, b: seq<Entry>) {
    var i := Min(|a|, |b|);
    a[..i] == b[..i]
  }

  lemma BackedAgree(c: Cluster, h: History, g: Chronicle, a: NodeState, b: NodeState, t: int, k: int, u: int, l: int)
    requires Good(c, h, g) && 0 < a.commitIndex <= |a.log| && 0 < b.commitIndex <= |b.log|
    requires Backs(c, h, t, k, a) && Backs(c, h, u, l, b) && t <= u
    ensures AgreeUpTo(Committed(a), Committed(b))
  {
    hide Good, Settled;
    var i := Min(a.commitIndex, b.commitIndex);
    SettledIsMarked(c, h, t, k);
    SettledIsMarked(c, h, u, l);
    if t < u { LaterTermHolds(c, h, g, t, k, u); }
    assert h.logs[t][..i] == h.logs[u][..i];
    assert Committed(a)[..i] == h.logs[t][..a.commitIndex][..i] == h.logs[t][..i];
    assert Committed(b)[..i] == h.logs[u][..b.commitIndex][..i] == h.logs[u][..i];
  }

  lemma CommitsAgree(c: Cluster, h: History, g: Chronicle, a: NodeState, b: NodeState)
    requires Good(c, h, g) && CommitSound(c, h, a) && CommitSound(c, h, b)
    ensures AgreeUpTo(Committed(a), Committed(b))
  {
    hide Good, Backs;
    if a.commitIndex > 0 && b.commitIndex > 0 {
      var t, k :| Backs(c, h, t, k, a);
      var u, l :| Backs(c, h, u, l, b);
      if t <= u { BackedAgree(c, h, g, a, b, t, k, u, l); } else { BackedAgree(c, h, g, b, a, u, l, t, k); }
    }
  }

  /** State-machine safety. What machine `v` has committed at one point of an
      orderly run and what machine `w` has committed at any later point (or the
      same one) agree, index by index, as far as both reach. */
  lemma StateMachineSafety(c: Cluster, before: seq<Step>, k: Cluster, v: NodeId, after: seq<Step>, w: NodeId)
    requires Initial(c) && IsOrderlyRun(c, before) && IsRun(c, before) && After(c, before) == k
    requires IsOrderlyRun(k, after)
    requires v in k.sites
    ensures IsRun(k, after) && 0 <= k.sites[v].node.commitIndex <= |k.sites[v].node.log|
    ensures var (s, r) := (k.sites[v].node, After(k, after).sites);
            w in r ==>
              && 0 <= r[w].node.commitIndex <= |r[w].node.log|
              && AgreeUpTo(Committed(s), Committed(r[w].node))
  {
    hide Good, IsOrderlyRun, CommitSound, Lasts, Initial, After, AgreeUpTo;
    InitialGood(c);
    var h, g := RunKeepsGood(c, NO_HISTORY, BLANK_PAGES, before);
    var h1, g1 := RunKeepsGood(k, h, g, after);
    GoodCommits(k, h, g, v);
    var r := After(k, after);
    if w in r.sites {
      BackingLasts(k, h, r, h1, k.sites[v].node);
      GoodCommits(r, h1, g1, w);
      CommitsAgree(r, h1, g1, k.sites[v].node, r.sites[w].node);
    }
  }

  lemma NeverBroken(c: Cluster, h: History, g: Chronicle, t: int, k: int, bound: int)
    requires Good(c, h, g) && Settled(c, h, t, k)
    ensures Mark(h, t, k) && !Broken(h, g, t, Upto(h, t, k), bound)
  {
    hide Inv, AllWatched, RepliesOk, LeadSound, CommitSound, Settled, Noted;
    SettledIsMarked(c, h, t, k);
    forall u, i | LacksAt(h, g, u, i, Upto(h, t, k)) && t < u ensures false {
      EveryWinnerHolds(c, h, g, t, k, u, i);
    }
  }

  lemma VoucherHolds(c: Cluster, h: History, g: Chronicle, t: int, k: int, p: NodeId)
    requires Good(c, h, g) && Settled(c, h, t, k) && p in c.sites && SaidUpTo(c.net, h, p, t, k)
    ensures Mark(h, t, k) && Upto(h, t, k) <= c.sites[p].node.log
  {
    hide Inv, RepliesOk, LeadSound, CommitSound, Settled, Noted, Broken, SaidUpTo;
    SettledIsMarked(c, h, t, k);
    SaidMeansVouches(c, h, p, t, k);
    assert Watched(c, h, g, p, t, k);
    NeverBroken(c, h, g, t, k, c.sites[p].node.term);
  }

  lemma MajorityHolds(c: Cluster, h: History, g: Chronicle, s: NodeState) returns (quorum: set<NodeId>)
    requires Good(c, h, g) && CommitSound(c, h, s)
    ensures s.commitIndex > 0 ==> quorum <= c.sites.Keys && 2 * |quorum| > |c.sites|
    ensures forall p | p in quorum :: p in c.sites && Committed(s) <= c.sites[p].node.log
  {
    hide Good, SaidUpTo;
    quorum := {};
    if s.commitIndex > 0 {
      var t, k :| Backs(c, h, t, k, s);
      var q :| SaidBy(c, h, t, k, q);
      quorum := q;
      forall p | p in q ensures Committed(s) <= c.sites[p].node.log {
        VoucherHolds(c, h, g, t, k, p);
        assert Committed(s) == Upto(h, t, k)[..s.commitIndex];
      }
    }
  }

  /** What any machine has committed at one point of an orderly run, the logs of a
      majority begin with at every later point. */
  lemma CommittedStaysWithMajority(c: Cluster, before: seq<Step>, k: Cluster, v: NodeId, after: seq<Step>)
    returns (quorum: set<NodeId>)
    requires Initial(c) && IsOrderlyRun(c, before) && IsRun(c, before) && After(c, before) == k
    requires IsOrderlyRun(k, after)
    requires v in k.sites
    ensures IsRun(k, after) && 0 <= k.sites[v].node.commitIndex <= |k.sites[v].node.log|
    ensures var (s, r) := (k.sites[v].node, After(k, after).sites);
            && (s.commitIndex > 0 ==> quorum <= r.Keys && 2 * |quorum| > |r|)
            && forall p | p in quorum :: p in r && Committed(s) <= r[p].node.log
  {
    hide Good, IsOrderlyRun, CommitSound, Lasts, Initial, After;
    InitialGood(c);
    var h, g := RunKeepsGood(c, NO_HISTORY, BLANK_PAGES, before);
    var h1, g1 := RunKeepsGood(k, h, g, after);
    GoodCommits(k, h, g, v);
    BackingLasts(k, h, After(k, after), h1, k.sites[v].node);
    quorum := MajorityHolds(After(k, after), h1, g1, k.sites[v].node);
  }
}
