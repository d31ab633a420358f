/** Election safety and log matching over every clean run of the cluster. */
module ClusterSafety {
  import opened Basics
  import opened Commands
  import opened RaftNode
  import opened Cluster
  import opened ClusterInvariant
  import opened ClusterSteps
  import opened MergeExactness
  import Commit
  import Replication

  /** How a step extends the history. */
  ghost function Record(c: Cluster, h: History, step: Step): History
    requires Enabled(c, step)
  {
    var s := c.sites[step.n];
    match step
    case FinishElection(n) =>
      var node := DoFinishElection(s).0.node;
      if node.role != Leader then h
      else
        var before := if node.term in h.wins then h.wins[node.term] else [];
        h.(wins := h.wins[node.term := before + [Win(n, s.campaign.tally + {n})]])
    case Propose(n, cmd) => h.(logs := h.logs[s.node.term := AppendOwn(s.node, cmd).log])
    case _ => h
  }

  // ---- sites that take no part in a step ----

  lemma BystanderKeeps(members: set<NodeId>, m: NodeId, s: Site, net: set<Message>, sent: set<Message>, h: History)
    requires SiteOk(members, m, s, net, h)
    requires forall x | x in sent :: x.VoteReply? ==> x.voter != m
    ensures SiteOk(members, m, s, net + sent, h)
  {
    assert forall t, c :: Granted(net + sent, m, t, c) <==> Granted(net, m, t, c);
    assert forall v, t, c :: Granted(net, v, t, c) ==> Granted(net + sent, v, t, c);
    assert forall t, c :: Cast(m, s, net + sent, t, c) <==> Cast(m, s, net, t, c);
  }

  lemma HistoryKeeps(members: set<NodeId>, net: set<Message>, sent: set<Message>, h: History)
    requires HistoryOk(members, net, h)
    ensures HistoryOk(members, net + sent, h)
  {
    assert forall v, t, c :: Granted(net, v, t, c) ==> Granted(net + sent, v, t, c);
    forall t | t in h.wins ensures WinListOk(members, net + sent, t, h.wins[t]) {
      assert WinListOk(members, net, t, h.wins[t]);
      forall i | 0 <= i < |h.wins[t]| ensures WinOk(members, net + sent, t, h.wins[t][i]) {
        assert WinOk(members, net, t, h.wins[t][i]);
      }
    }
  }

  /** A step that adds no history only has to be checked where it happens. */
  lemma LocalStepKeepsInv(c: Cluster, h: History, step: Step)
    requires Inv(c, h) && Enabled(c, step)
    requires Keeps(c.sites.Keys, step.n, SiteStep(c, step), c.net, h)
    ensures Inv(Next(c, step), h)
  {
    var (s1, sent) := SiteStep(c, step);
    var c1 := Next(c, step);
    assert c1.sites.Keys == c.sites.Keys;
    forall m | m in c1.sites ensures SiteOk(c1.sites.Keys, m, c1.sites[m], c1.net, h) {
      if m != step.n { BystanderKeeps(c.sites.Keys, m, c.sites[m], c.net, sent, h); }
    }
    HistoryKeeps(c.sites.Keys, c.net, sent, h);
  }

  // ---- winning an election ----

  ghost predicate Winning(c: Cluster, n: NodeId) {
    && n in c.sites && c.sites[n].campaign.Soliciting?
    && DoFinishElection(c.sites[n]).0.node.role == Leader
  }

  lemma CandidateCastsNothing(members: set<NodeId>, n: NodeId, s: Site, net: set<Message>, h: History)
    requires SiteOk(members, n, s, net, h) && s.node.role == Candidate
    ensures forall d :: !Granted(net, n, s.node.term, d)
  {
    assert forall t, d :: Granted(net, n, t, d) ==> Cast(n, s, net, t, d);
  }

  lemma VotesOnce(members: set<NodeId>, v: NodeId, s: Site, net: set<Message>, h: History, t: int, d: NodeId, e: NodeId)
    requires SiteOk(members, v, s, net, h)
    ensures Granted(net, v, t, d) && Granted(net, v, t, e) ==> d == e
  {
    assert Granted(net, v, t, d) ==> Cast(v, s, net, t, d);
    assert Granted(net, v, t, e) ==> Cast(v, s, net, t, e);
  }

  /** Quorum intersection: an earlier winner of the same term must itself have
      voted for the new one. */
  lemma EarlierWinnerGranted(c: Cluster, h: History, n: NodeId, w: Win)
    requires Inv(c, h) && Winning(c, n)
    requires c.sites[n].node.term in h.wins && w in h.wins[c.sites[n].node.term]
    ensures w.leader != n && Granted(c.net, w.leader, c.sites[n].node.term, n)
  {
    var s := c.sites[n];
    var members, t := c.sites.Keys, s.node.term;
    assert SiteOk(members, n, s, c.net, h);
    assert WinListOk(members, c.net, t, h.wins[t]);
    assert WinOk(members, c.net, t, w);
    assert Won(h, t, w.leader);
    CandidateCastsNothing(members, n, s, c.net, h);
    var v := QuorumsMeet(members, s.campaign.tally + {n}, w.quorum);
    assert v != n ==> Granted(c.net, v, t, n);
    assert v != w.leader ==> Granted(c.net, v, t, w.leader);
    VotesOnce(members, v, c.sites[v], c.net, h, t, w.leader, n);
  }

  /** So a term with entries is never won again, and no term is won three times. */
  lemma TermStillOpen(c: Cluster, h: History, n: NodeId)
    requires Inv(c, h) && Winning(c, n)
    ensures var t := c.sites[n].node.term;
            t !in h.logs && (t in h.wins ==> |h.wins[t]| == 1)
  {
    var t := c.sites[n].node.term;
    if t in h.wins {
      var ws := h.wins[t];
      assert WinListOk(c.sites.Keys, c.net, t, ws);
      EarlierWinnerGranted(c, h, n, ws[0]);
      var first := ws[0].leader;
      assert WinOk(c.sites.Keys, c.net, t, ws[0]);
      assert SiteOk(c.sites.Keys, first, c.sites[first], c.net, h);
      assert Cast(first, c.sites[first], c.net, t, n);
      if |ws| == 2 {
        assert Cast(first, c.sites[first], c.net, t, ws[1].leader);
        EarlierWinnerGranted(c, h, n, ws[1]);
        assert false;
      }
      if t in h.logs {
        assert SoleWinner(h, t, first);
        assert false;
      }
    }
  }

  /** `h1` is `h` with one more win of term `t` by `n`. */
  ghost predicate WinAdded(h: History, h1: History, t: int, w: Win) {
    && h1.logs == h.logs
    && h1.wins == h.wins[t := (if t in h.wins then h.wins[t] else []) + [w]]
  }

  lemma WonAfterWin(h: History, h1: History, t: int, w: Win)
    requires WinAdded(h, h1, t, w)
    ensures forall u, m :: Won(h, u, m) ==> Won(h1, u, m)
    ensures forall u, m :: Won(h1, u, m) ==> Won(h, u, m) || (m == w.leader && u == t)
    ensures LastWinner(h1, t, w.leader)
    ensures forall u, m :: u != t ==> (SoleWinner(h1, u, m) <==> SoleWinner(h, u, m))
    ensures forall u, m :: u != t ==> (LastWinner(h1, u, m) <==> LastWinner(h, u, m))
  {
    forall u, m | Won(h, u, m) ensures Won(h1, u, m) {
      var x :| x in h.wins[u] && x.leader == m;
      assert x in h1.wins[u];
    }
    forall u, m | Won(h1, u, m) ensures Won(h, u, m) || (m == w.leader && u == t) {
      var x :| x in h1.wins[u] && x.leader == m;
      assert (u in h.wins && x in h.wins[u]) || (x == w && u == t);
    }
  }

  lemma WinSpectatorKeeps(members: set<NodeId>, m: NodeId, s: Site, net: set<Message>, h: History, h1: History, t: int,
                          w: Win)
    requires SiteOk(members, m, s, net, h)
    requires WinAdded(h, h1, t, w) && t !in h.logs && m != w.leader
    requires !(s.node.role == Leader && s.node.term == t)
    ensures SiteOk(members, m, s, net, h1)
  {
    WonAfterWin(h, h1, t, w);
  }

  lemma WinnerKeeps(members: set<NodeId>, n: NodeId, s: Site, net: set<Message>, h: History, h1: History, w: Win)
    requires SiteOk(members, n, s, net, h)
    requires WinAdded(h, h1, s.node.term, w) && s.node.term !in h.logs && n == w.leader
    requires s.campaign.Soliciting? && s.node.role == Candidate && s.node.term == s.campaign.req.term
    ensures SiteOk(members, n, s.(node := BecomeLeader(s.node), campaign := Idle), net, h1)
  {
    WonAfterWin(h, h1, s.node.term, w);
    var s1 := s.(node := BecomeLeader(s.node), campaign := Idle);
    forall u, d | Cast(n, s1, net, u, d) ensures Cast(n, s, net, u, d) && u < s.node.term {
      assert Cast(n, s, net, u, d);
      assert VoteHeld(s.node, u, d);
    }
    assert forall u, d :: Cast(n, s1, net, u, d) <==> Cast(n, s, net, u, d);
  }

  ghost function WinOf(c: Cluster, n: NodeId): Win
    requires Winning(c, n)
  {
    Win(n, c.sites[n].campaign.tally + {n})
  }

  lemma WinShape(c: Cluster, h: History, n: NodeId)
    requires Winning(c, n)
    ensures var s := c.sites[n];
            && Enabled(c, FinishElection(n))
            && s.node.role == Candidate && s.node.term == s.campaign.req.term
            && Next(c, FinishElection(n)) == Cluster(c.sites[n := s.(node := BecomeLeader(s.node), campaign := Idle)], c.net)
            && WinAdded(h, Record(c, h, FinishElection(n)), s.node.term, WinOf(c, n))
  {
    assert c.net + {} == c.net;
  }

  /** Nobody else leads the term at the moment it is won. */
  lemma NoRivalLeads(c: Cluster, h: History, n: NodeId, m: NodeId)
    requires Inv(c, h) && Winning(c, n) && m in c.sites && m != n
    ensures !(c.sites[m].node.role == Leader && c.sites[m].node.term == c.sites[n].node.term)
  {
    var s, t := c.sites[m], c.sites[n].node.term;
    assert SiteOk(c.sites.Keys, m, s, c.net, h);
    if LastWinner(h, t, m) {
      EarlierWinnerGranted(c, h, n, h.wins[t][|h.wins[t]| - 1]);
      assert Cast(m, s, c.net, t, n);
      assert VoteHeld(s.node, t, n);
    }
  }

  lemma WinKeepsSites(c: Cluster, h: History, n: NodeId, h1: History)
    requires Inv(c, h) && Winning(c, n) && WinAdded(h, h1, c.sites[n].node.term, WinOf(c, n))
    ensures forall m | m in c.sites && m != n :: SiteOk(c.sites.Keys, m, c.sites[m], c.net, h1)
    ensures SiteOk(c.sites.Keys, n, c.sites[n].(node := BecomeLeader(c.sites[n].node), campaign := Idle), c.net, h1)
  {
    var members, t := c.sites.Keys, c.sites[n].node.term;
    TermStillOpen(c, h, n);
    forall m | m in c.sites && m != n ensures SiteOk(members, m, c.sites[m], c.net, h1) {
      NoRivalLeads(c, h, n, m);
      WinSpectatorKeeps(members, m, c.sites[m], c.net, h, h1, t, WinOf(c, n));
    }
    WinnerKeeps(members, n, c.sites[n], c.net, h, h1, WinOf(c, n));
  }

  lemma TallyIsQuorum(c: Cluster, h: History, n: NodeId)
    requires Inv(c, h) && Winning(c, n)
    ensures WinOk(c.sites.Keys, c.net, c.sites[n].node.term, Win(n, c.sites[n].campaign.tally + {n}))
  {
    assert SiteOk(c.sites.Keys, n, c.sites[n], c.net, h);
  }

  /** An election is won exactly when the candidate, still in its own campaign's term,
      has the votes of more than half of the machines, its own included. */
  lemma WonExactlyByMajority(c: Cluster, h: History, n: NodeId)
    requires Inv(c, h) && Enabled(c, FinishElection(n))
    ensures var s := c.sites[n];
            Next(c, FinishElection(n)).sites[n].node.role == Leader <==>
              s.node.role == Candidate && s.node.term == s.campaign.req.term && 2 * (|s.campaign.tally| + 1) > |c.sites|
  {
    assert SiteOk(c.sites.Keys, n, c.sites[n], c.net, h);
    assert |c.sites| == |c.sites.Keys|;
  }

  lemma WinKeepsHistory(members: set<NodeId>, net: set<Message>, h: History, h1: History, t: int, w: Win)
    requires HistoryOk(members, net, h) && WinAdded(h, h1, t, w) && WinOk(members, net, t, w)
    requires t in h.wins ==>
               |h.wins[t]| == 1 && h.wins[t][0].leader != w.leader && Granted(net, h.wins[t][0].leader, t, w.leader)
    ensures HistoryOk(members, net, h1)
  {
    if t in h.wins {
      assert WinListOk(members, net, t, h.wins[t]);
      assert h1.wins[t] == [h.wins[t][0], w];
    }
    forall u | u in h1.wins ensures WinListOk(members, net, u, h1.wins[u]) {
      if u != t { assert WinListOk(members, net, u, h.wins[u]); }
    }
  }

  lemma WinKeepsMessages(members: set<NodeId>, m: Message, h: History, h1: History, t: int, w: Win)
    requires MsgOk(members, m, h) && WinAdded(h, h1, t, w)
    ensures MsgOk(members, m, h1)
  {
    WonAfterWin(h, h1, t, w);
  }

  lemma WinHistoryOk(c: Cluster, h: History, n: NodeId, h1: History)
    requires Inv(c, h) && Winning(c, n) && WinAdded(h, h1, c.sites[n].node.term, WinOf(c, n))
    ensures HistoryOk(c.sites.Keys, c.net, h1)
  {
    var t := c.sites[n].node.term;
    TermStillOpen(c, h, n);
    if t in h.wins { EarlierWinnerGranted(c, h, n, h.wins[t][0]); }
    TallyIsQuorum(c, h, n);
    WinKeepsHistory(c.sites.Keys, c.net, h, h1, t, WinOf(c, n));
  }

  lemma WinKeepsInv(c: Cluster, h: History, n: NodeId)
    requires Inv(c, h) && Winning(c, n)
    ensures Inv(Next(c, FinishElection(n)), Record(c, h, FinishElection(n)))
  {
    hide SiteOk, MsgOk, Next, Record, Enabled, WinAdded;
    WinShape(c, h, n);
    var h1 := Record(c, h, FinishElection(n));
    var c1 := Next(c, FinishElection(n));
    assert c1.sites.Keys == c.sites.Keys;
    WinKeepsSites(c, h, n, h1);
    WinHistoryOk(c, h, n, h1);
    forall m | m in c1.net ensures MsgOk(c1.sites.Keys, m, h1) {
      WinKeepsMessages(c.sites.Keys, m, h, h1, c.sites[n].node.term, WinOf(c, n));
    }
  }

  // ---- creating an entry ----

  /** History logs only grow, so what was sourced stays sourced. */
  lemma SourcedMonotone(logs: map<int, seq<Entry>>, t: int, longer: seq<Entry>, log: seq<Entry>)
    requires Sourced(logs, log)
    requires t in logs ==> logs[t] <= longer
    ensures Sourced(logs[t := longer], log)
  {
    var logs1 := logs[t := longer];
    forall i | 0 <= i < |log| ensures SourcedAt(logs1, log, i) {
      assert SourcedAt(logs, log, i);
      var u := log[i].term;
      if u == t {
        assert longer[..i + 1] == logs[t][..i + 1];
      }
    }
  }

  lemma RequestMonotone(logs: map<int, seq<Entry>>, t: int, longer: seq<Entry>, req: AppendRequest)
    requires RequestOk(logs, req)
    requires t in logs ==> logs[t] <= longer
    ensures RequestOk(logs[t := longer], req)
  {
    var logs1 := logs[t := longer];
    if req.prevLogIndex == 0 || req.prevLogTerm != -1 {
      assert Claimed(logs1, req) == Claimed(logs, req);
      SourcedMonotone(logs, t, longer, Claimed(logs, req));
    }
  }

  lemma GrownLogSourced(logs: map<int, seq<Entry>>, t: int, log: seq<Entry>, e: Entry)
    requires Sourced(logs, log) && e.term == t
    requires t in logs ==> logs[t] == log
    ensures Sourced(logs[t := log + [e]], log + [e])
  {
    var logs1 := logs[t := log + [e]];
    SourcedMonotone(logs, t, log + [e], log);
    forall i | 0 <= i < |log + [e]| ensures SourcedAt(logs1, log + [e], i) {
      if i < |log| {
        assert SourcedAt(logs1, log, i);
        assert (log + [e])[..i + 1] == log[..i + 1];
      }
    }
  }

  lemma EntrySpectatorKeeps(members: set<NodeId>, m: NodeId, s: Site, net: set<Message>, h: History, t: int,
                            longer: seq<Entry>)
    requires SiteOk(members, m, s, net, h)
    requires t in h.logs ==> h.logs[t] <= longer
    requires exists n :: n != m && LastWinner(h, t, n)
    ensures SiteOk(members, m, s, net, h.(logs := h.logs[t := longer]))
  {
    var h1 := h.(logs := h.logs[t := longer]);
    assert forall u, x :: (Won(h1, u, x) <==> Won(h, u, x)) && (SoleWinner(h1, u, x) <==> SoleWinner(h, u, x))
                          && (LastWinner(h1, u, x) <==> LastWinner(h, u, x));
    SourcedMonotone(h.logs, t, longer, s.node.log);
    SourcedMonotone(h.logs, t, longer, s.disk.log);
    assert !SoleWinner(h1, t, m) && !LastWinner(h1, t, m);
  }

  lemma EntryCreatorKeeps(members: set<NodeId>, n: NodeId, s: Site, net: set<Message>, h: History, cmd: Command)
    requires SiteOk(members, n, s, net, h) && s.node.role == Leader
    ensures SiteOk(members, n, s.(node := AppendOwn(s.node, cmd)), net,
                   h.(logs := h.logs[s.node.term := AppendOwn(s.node, cmd).log]))
  {
    var t, grown := s.node.term, AppendOwn(s.node, cmd).log;
    var s1, h1 := s.(node := AppendOwn(s.node, cmd)), h.(logs := h.logs[t := grown]);
    assert forall u, x :: (Won(h1, u, x) <==> Won(h, u, x)) && (SoleWinner(h1, u, x) <==> SoleWinner(h, u, x))
                          && (LastWinner(h1, u, x) <==> LastWinner(h, u, x));
    assert forall u, d :: Cast(n, s1, net, u, d) <==> Cast(n, s, net, u, d);
    GrownLogSourced(h.logs, t, s.node.log, Entry(t, cmd));
    SourcedMonotone(h.logs, t, grown, s.disk.log);
    assert forall d :: !Cast(n, s, net, t, d);
    assert LocalOk(members, n, s1);
    assert OwnerOk(n, s1, net, h1);
  }

  lemma EntryKeepsHistory(members: set<NodeId>, net: set<Message>, h: History, t: int, log: seq<Entry>, cmd: Command)
    requires HistoryOk(members, net, h) && t in h.wins && t >= 0
    requires Sourced(h.logs, log) && TermsUpTo(log, t) && (t in h.logs ==> h.logs[t] == log)
    ensures HistoryOk(members, net, h.(logs := h.logs[t := log + [Entry(t, cmd)]]))
  {
    var h1 := h.(logs := h.logs[t := log + [Entry(t, cmd)]]);
    forall u | u in h1.logs ensures u in h1.wins && TermLogOk(h1.logs, u) {
      if u == t {
        GrownLogSourced(h.logs, t, log, Entry(t, cmd));
      } else {
        assert TermLogOk(h.logs, u);
        SourcedMonotone(h.logs, t, log + [Entry(t, cmd)], h.logs[u]);
      }
    }
  }

  lemma EntryKeepsMessage(members: set<NodeId>, m: Message, h: History, t: int, longer: seq<Entry>)
    requires MsgOk(members, m, h) && (t in h.logs ==> h.logs[t] <= longer)
    ensures MsgOk(members, m, h.(logs := h.logs[t := longer]))
  {
    var h1 := h.(logs := h.logs[t := longer]);
    assert forall u, x :: Won(h1, u, x) <==> Won(h, u, x);
    if m.Append? { RequestMonotone(h.logs, t, longer, m.areq); }
  }

  lemma ProposeShape(c: Cluster, h: History, n: NodeId, cmd: Command)
    requires Enabled(c, Propose(n, cmd))
    ensures n in c.sites && c.sites[n].node.role == Leader
    ensures var s := c.sites[n];
            && Next(c, Propose(n, cmd)) == Cluster(c.sites[n := s.(node := AppendOwn(s.node, cmd))], c.net)
            && Record(c, h, Propose(n, cmd)) == h.(logs := h.logs[s.node.term := s.node.log + [Entry(s.node.term, cmd)]])
  {
    assert c.net + {} == c.net;
  }

  lemma LeaderLogIsHistory(c: Cluster, h: History, n: NodeId)
    requires Inv(c, h) && n in c.sites && c.sites[n].node.role == Leader
    ensures var s := c.sites[n].node;
            && s.term >= 0 && LastWinner(h, s.term, n)
            && Sourced(h.logs, s.log) && TermsUpTo(s.log, s.term)
            && (s.term in h.logs ==> h.logs[s.term] == s.log)
  {
    assert SiteOk(c.sites.Keys, n, c.sites[n], c.net, h);
  }

  lemma ProposeKeepsInv(c: Cluster, h: History, n: NodeId, cmd: Command)
    requires Inv(c, h) && Enabled(c, Propose(n, cmd))
    ensures Inv(Next(c, Propose(n, cmd)), Record(c, h, Propose(n, cmd)))
  {
    hide SiteOk, MsgOk, Sourced, TermsUpTo, Next, Record, Enabled;
    ProposeShape(c, h, n, cmd);
    var members, s := c.sites.Keys, c.sites[n];
    var t, grown := s.node.term, s.node.log + [Entry(s.node.term, cmd)];
    LeaderLogIsHistory(c, h, n);
    var c1, h1 := Next(c, Propose(n, cmd)), Record(c, h, Propose(n, cmd));
    assert c1.sites.Keys == members;
    EntryCreatorKeeps(members, n, s, c.net, h, cmd);
    forall m | m in c1.sites ensures SiteOk(members, m, c1.sites[m], c1.net, h1) {
      if m != n { EntrySpectatorKeeps(members, m, c.sites[m], c.net, h, t, grown); }
    }
    forall m | m in c1.net ensures MsgOk(members, m, h1) { EntryKeepsMessage(members, m, h, t, grown); }
    EntryKeepsHistory(members, c.net, h, t, s.node.log, cmd);
  }

  // ---- whole runs ----

  lemma StepKeepsInv(c: Cluster, h: History, step: Step)
    requires Inv(c, h) && Enabled(c, step) && Clean(c, step)
    ensures Inv(Next(c, step), Record(c, h, step))
  {
    var members, n := c.sites.Keys, step.n;
    var s := c.sites[n];
    assert SiteOk(members, n, s, c.net, h);
    match step {
      case Timeout(_) => TimeoutKeeps(members, n, s, c.net, h);
      case SaveCampaign(_, out) => SaveCampaignKeeps(members, n, s, c.net, h, out);
      case ReceiveVote(_, req) =>
        assert MsgOk(members, Solicit(req), h);
        ReceiveVoteKeeps(members, n, s, c.net, h, req);
      case AnswerVote(_, cand, term, out) => AnswerVoteKeeps(members, n, s, c.net, h, cand, term, out);
      case TallyVote(_, voter, resp) => TallyVoteKeeps(members, n, s, c.net, h, voter, resp);
      case FinishElection(_) =>
        if Winning(c, n) { WinKeepsInv(c, h, n); return; }
        LostElectionKeeps(members, n, s, c.net, h);
      case Propose(_, cmd) => ProposeKeepsInv(c, h, n, cmd); return;
      case Save(_, out) =>
        PersistKeeps(members, n, s, c.net, h, out);
        assert c.net + {} == c.net;
      case Replicate(_, to) => ReplicateKeeps(members, n, s, c.net, h, to);
      case ReceiveAppend(_, req) =>
        assert MsgOk(members, Append(n, req), h);
        ReceiveAppendKeeps(members, n, s, c.net, h, req);
      case AnswerAppend(_, req, term, out) => AnswerAppendKeeps(members, n, s, c.net, h, req, term, out);
      case ReceiveAppendReply(_, from, resp) => AppendReplyKeeps(members, n, s, c.net, h, from, resp);
      case CallFailed(_, to) => CallFailedKeeps(members, n, s, c.net, h, to);
      case QuorumLoss(_) => QuorumLossKeeps(members, n, s, c.net, h);
      case Crash(_) => CrashKeeps(members, n, s, c.net, h);
    }
    LocalStepKeepsInv(c, h, step);
  }

  lemma InitialInv(c: Cluster)
    requires Initial(c)
    ensures Inv(c, NO_HISTORY)
  {
    forall n | n in c.sites ensures SiteOk(c.sites.Keys, n, c.sites[n], c.net, NO_HISTORY) {
      assert forall t, d :: !Cast(n, c.sites[n], c.net, t, d);
    }
  }

  lemma {:induction false} RunKeepsInv(c: Cluster, h: History, steps: seq<Step>) returns (h1: History)
    requires Inv(c, h) && IsCleanRun(c, steps)
    ensures IsRun(c, steps) && Inv(After(c, steps), h1)
    decreases |steps|
  {
    if steps == [] {
      h1 := h;
    } else {
      StepKeepsInv(c, h, steps[0]);
      h1 := RunKeepsInv(Next(c, steps[0]), Record(c, h, steps[0]), steps[1..]);
    }
  }

  /** Election safety: in every state a clean run reaches, two leaders of the
      same term are the same node. */
  lemma ElectionSafety(c: Cluster, steps: seq<Step>, a: NodeId, b: NodeId)
    requires Initial(c) && IsCleanRun(c, steps)
    ensures IsRun(c, steps)
    ensures var r := After(c, steps).sites;
            a in r && b in r && r[a].node.role == Leader && r[b].node.role == Leader && r[a].node.term == r[b].node.term
            ==> a == b
  {
    InitialInv(c);
    var h := RunKeepsInv(c, NO_HISTORY, steps);
    var r := After(c, steps);
    if a in r.sites && b in r.sites {
      assert SiteOk(r.sites.Keys, a, r.sites[a], r.net, h);
      assert SiteOk(r.sites.Keys, b, r.sites[b], r.net, h);
    }
  }

  /** The quorum in every state a clean run reaches: a candidate leads at the end of
      its election if and only if it is still a candidate of the campaign's term and
      more than half of the machines, itself included, voted for it. */
  lemma LeadsExactlyByMajority(c: Cluster, steps: seq<Step>, n: NodeId)
    requires Initial(c) && IsCleanRun(c, steps)
    ensures IsRun(c, steps)
    ensures var k := After(c, steps);
            Enabled(k, FinishElection(n)) ==>
              (Next(k, FinishElection(n)).sites[n].node.role == Leader <==>
                 && k.sites[n].node.role == Candidate && k.sites[n].node.term == k.sites[n].campaign.req.term
                 && 2 * (|k.sites[n].campaign.tally| + 1) > |k.sites|)
  {
    hide Inv, Next, Enabled;
    InitialInv(c);
    var h := RunKeepsInv(c, NO_HISTORY, steps);
    if Enabled(After(c, steps), FinishElection(n)) { WonExactlyByMajority(After(c, steps), h, n); }
  }

  /** The logs a machine holds: in memory and on disk. */
  ghost predicate HoldsLog(s: Site, log: seq<Entry>) { log == s.node.log || log == s.disk.log }

  lemma HeldLogsAreSourced(c: Cluster, h: History, a: NodeId, log: seq<Entry>)
    requires Inv(c, h) && a in c.sites && HoldsLog(c.sites[a], log)
    ensures Sourced(h.logs, log) && TermsUpTo(log, c.sites[a].node.term)
  {
    assert SiteOk(c.sites.Keys, a, c.sites[a], c.net, h);
  }

  /** Log matching: in every state a clean run reaches, any two logs, volatile
      or durable, of any two machines, that agree on the term of an index are
      identical up to that index. */
  lemma LogMatching(c: Cluster, steps: seq<Step>, a: NodeId, b: NodeId, la: seq<Entry>, lb: seq<Entry>, i: nat)
    requires Initial(c) && IsCleanRun(c, steps)
    ensures IsRun(c, steps)
    ensures var r := After(c, steps).sites;
            a in r && b in r && HoldsLog(r[a], la) && HoldsLog(r[b], lb)
            && i < |la| && i < |lb| && la[i].term == lb[i].term
            ==> la[..i + 1] == lb[..i + 1]
  {
    hide Inv, IsCleanRun, Initial, HoldsLog, Sourced, TermsUpTo;
    InitialInv(c);
    var h := RunKeepsInv(c, NO_HISTORY, steps);
    var r := After(c, steps);
    if a in r.sites && b in r.sites && HoldsLog(r.sites[a], la) && HoldsLog(r.sites[b], lb)
      && i < |la| && i < |lb| && la[i].term == lb[i].term
    {
      HeldLogsAreSourced(r, h, a, la);
      HeldLogsAreSourced(r, h, b, lb);
      SourcedLogsMatch(h.logs, la, lb, i);
    }
  }

  lemma SourcedAscends(members: set<NodeId>, net: set<Message>, h: History, log: seq<Entry>, bound: int)
    requires HistoryOk(members, net, h) && Sourced(h.logs, log) && TermsUpTo(log, bound)
    ensures Commit.AscendingTerms(log, bound)
  {
    forall i, j | 0 <= i < j < |log| ensures log[i].term <= log[j].term {
      var t := log[j].term;
      assert SourcedAt(h.logs, log, j);
      assert TermLogOk(h.logs, t);
      assert log[i] == log[..j + 1][i] == h.logs[t][..j + 1][i] == h.logs[t][i];
    }
  }

  /** Along every log, volatile or durable, terms never fall. */
  lemma LogTermsAscend(c: Cluster, steps: seq<Step>, a: NodeId, log: seq<Entry>)
    requires Initial(c) && IsCleanRun(c, steps)
    ensures IsRun(c, steps)
    ensures var r := After(c, steps).sites;
            a in r && HoldsLog(r[a], log) ==> Commit.AscendingTerms(log, r[a].node.term)
  {
    hide IsCleanRun, Initial, HoldsLog, Sourced, TermsUpTo, HistoryOk, SitesOk, NetOk, Commit.AscendingTerms;
    InitialInv(c);
    var h := RunKeepsInv(c, NO_HISTORY, steps);
    var r := After(c, steps);
    if a in r.sites && HoldsLog(r.sites[a], log) {
      HeldLogsAreSourced(r, h, a, log);
      SourcedAscends(r.sites.Keys, r.net, h, log, r.sites[a].node.term);
    }
  }

  lemma SourcedAgrees(logs: map<int, seq<Entry>>, f: NodeState, leader: NodeState)
    requires Sourced(logs, f.log) && Sourced(logs, leader.log) && TermsUpTo(f.log, f.term)
    requires leader.term in logs ==> logs[leader.term] == leader.log
    ensures Replication.Agrees(f, leader, leader.term)
  {
    forall k | 0 <= k < |f.log| && k < |leader.log| && f.log[k].term == leader.log[k].term
      ensures AgreesAbove(f.log, 0, leader.log, k + 1)
    {
      SourcedLogsMatch(logs, f.log, leader.log, k);
      assert forall j | 0 <= j <= k :: f.log[j] == f.log[..k + 1][j] == leader.log[..k + 1][j];
    }
    forall k | |leader.log| <= k < |f.log| ensures f.log[k].term != leader.term {
      assert SourcedAt(logs, f.log, k);
    }
  }

  /** What a leader may rely on about every other machine that has not passed
      its term: log matching with its own log, and no entries of its term but
      its own. This is the starting point of `Replication.Elected`. */
  lemma LeaderAgreesWithAll(c: Cluster, steps: seq<Step>, n: NodeId, m: NodeId)
    requires Initial(c) && IsCleanRun(c, steps)
    ensures IsRun(c, steps)
    ensures var r := After(c, steps).sites;
            n in r && m in r && r[n].node.role == Leader ==> Replication.Agrees(r[m].node, r[n].node, r[n].node.term)
  {
    InitialInv(c);
    var h := RunKeepsInv(c, NO_HISTORY, steps);
    var r := After(c, steps);
    if n in r.sites && m in r.sites && r.sites[n].node.role == Leader {
      assert SiteOk(r.sites.Keys, n, r.sites[n], r.net, h);
      assert SiteOk(r.sites.Keys, m, r.sites[m], r.net, h);
      SourcedAgrees(h.logs, r.sites[m].node, r.sites[n].node);
    }
  }

  // ---- what a vote says about the logs ----

  /** Logs that end in the same term are prefixes of that term's one log. */
  lemma SameLastTerm(logs: map<int, seq<Entry>>, a: seq<Entry>, b: seq<Entry>)
    requires Sourced(logs, a) && Sourced(logs, b)
    requires 0 < |a| <= |b| && a[|a| - 1].term == b[|b| - 1].term
    ensures a <= b
  {
    var t := a[|a| - 1].term;
    assert SourcedAt(logs, a, |a| - 1) && SourcedAt(logs, b, |b| - 1);
    assert a == a[..|a|] == logs[t][..|a|] && b == b[..|b|] == logs[t][..|b|];
  }

  lemma FreshMeansHolds(logs: map<int, seq<Entry>>, v: NodeState, n: NodeState, req: VoteRequest)
    requires v.base == n.base == 0 && v.baseTerm == n.baseTerm == 0
    requires Sourced(logs, v.log) && Sourced(logs, n.log)
    requires Commit.AscendingTerms(n.log, n.term) && TermsUpTo(v.log, v.term) && TermsUpTo(n.log, n.term)
    requires req == SolicitRequest(n)
    ensures LogFresh(v, req) <==> LastTerm(n) > LastTerm(v) || v.log <= n.log
  {
    if 0 < |v.log| <= |n.log| && LastTerm(v) == LastTerm(n) { SameLastTerm(logs, v.log, n.log); }
    if v.log <= n.log && |v.log| > 0 {
      assert n.log[|v.log| - 1] == v.log[|v.log| - 1];
      assert n.log[|v.log| - 1].term <= n.log[|n.log| - 1].term;
    }
  }

  lemma NewerTermVote(s: NodeState, req: VoteRequest)
    requires req.term > s.term
    ensures DecideVote(s, req).1.granted <==> LogFresh(s, req)
  {}

  /** In every state a clean run reaches, a machine asked in a newer term for its
      vote, by a candidate as it stands, grants it if and only if the candidate's
      log ends in a later term or contains the machine's own log. */
  lemma VoteGoesToTheFullerLog(c: Cluster, steps: seq<Step>, v: NodeId, n: NodeId, req: VoteRequest)
    requires Initial(c) && IsCleanRun(c, steps)
    ensures IsRun(c, steps)
    ensures var r := After(c, steps).sites;
            v in r && n in r && req == SolicitRequest(r[n].node) && req.term > r[v].node.term ==>
              (DecideVote(r[v].node, req).1.granted
               <==> LastTerm(r[n].node) > LastTerm(r[v].node) || r[v].node.log <= r[n].node.log)
  {
    hide DecideVote, SolicitRequest, LogFresh, LastTerm;
    InitialInv(c);
    var h := RunKeepsInv(c, NO_HISTORY, steps);
    var r := After(c, steps);
    if v in r.sites && n in r.sites && req == SolicitRequest(r.sites[n].node) && req.term > r.sites[v].node.term {
      assert SiteOk(r.sites.Keys, v, r.sites[v], r.net, h);
      assert SiteOk(r.sites.Keys, n, r.sites[n], r.net, h);
      LogTermsAscend(c, steps, n, r.sites[n].node.log);
      FreshMeansHolds(h.logs, r.sites[v].node, r.sites[n].node, req);
      NewerTermVote(r.sites[v].node, req);
    }
  }
}
