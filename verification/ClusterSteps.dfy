/** Each step keeps the invariant at the site that takes it. */
module ClusterSteps {
  import opened Basics
  import opened Commands
  import opened RaftNode
  import opened Cluster
  import opened ClusterInvariant
  import opened MergeExactness
  import opened LeaderLogic

  /** Messages sent by `n` are well-formed, and only `n` speaks for `n`. */
  ghost predicate SentOk(members: set<NodeId>, n: NodeId, sent: set<Message>, h: History) {
    forall m | m in sent :: MsgOk(members, m, h) && (m.VoteReply? ==> m.voter == n)
  }

  ghost predicate Keeps(members: set<NodeId>, n: NodeId, r: (Site, set<Message>), net: set<Message>, h: History) {
    SiteOk(members, n, r.0, net + r.1, h) && SentOk(members, n, r.1, h)
  }

  lemma SoleWinsAreStored(n: NodeId, s: Site, h: History)
    requires WinsOk(n, s, h)
    ensures forall t :: SoleWinner(h, t, n) ==> Won(h, t, n) && t <= s.disk.term
  {
    forall t | SoleWinner(h, t, n) ensures Won(h, t, n) {
      assert h.wins[t][0] in h.wins[t];
    }
  }

  lemma PersistKeeps(members: set<NodeId>, n: NodeId, s: Site, net: set<Message>, h: History, out: SaveOutcome)
    requires SiteOk(members, n, s, net, h)
    ensures SiteOk(members, n, PersistSite(s, out), net, h)
    ensures PersistOk(s, out) ==> PersistSite(s, out).disk == ToDisk(s.node)
  {
    var s1 := PersistSite(s, out);
    assert forall t, c :: Cast(n, s1, net, t, c) <==> Cast(n, s, net, t, c);
    forall t, c | Granted(net, n, t, c) ensures VoteStored(s1.disk, t, c) {
      assert Cast(n, s, net, t, c);
    }
  }

  lemma TimeoutKeeps(members: set<NodeId>, n: NodeId, s: Site, net: set<Message>, h: History)
    requires SiteOk(members, n, s, net, h) && s.node.role != Leader && s.campaign.Idle?
    ensures Keeps(members, n, DoTimeout(s), net, h)
  {
    var (s1, sent) := DoTimeout(s);
    assert net + sent == net;
    assert forall t, c :: Cast(n, s1, net, t, c) <==> Cast(n, s, net, t, c);
  }

  lemma SaveCampaignKeeps(members: set<NodeId>, n: NodeId, s: Site, net: set<Message>, h: History, out: SaveOutcome)
    requires SiteOk(members, n, s, net, h) && s.campaign.Starting?
    ensures Keeps(members, n, DoSaveCampaign(s, out), net, h)
  {
    PersistKeeps(members, n, s, net, h, out);
    var (s1, sent) := DoSaveCampaign(s, out);
    assert forall v, t, c :: Granted(net + sent, v, t, c) <==> Granted(net, v, t, c);
    assert forall t, c :: Cast(n, s1, net + sent, t, c) <==> Cast(n, s, net, t, c);
  }

  lemma ReceiveVoteKeeps(members: set<NodeId>, n: NodeId, s: Site, net: set<Message>, h: History, req: VoteRequest)
    requires n in members && SiteOk(members, n, s, net, h)
    requires req.lastLogTerm < req.term && req.candidate != n
    ensures Keeps(members, n, DoReceiveVote(s, req), net, h)
  {
    var (s1, sent) := DoReceiveVote(s, req);
    assert forall v, t, c :: Granted(net + sent, v, t, c) <==> Granted(net, v, t, c);
    var granted := DecideVote(s.node, req).1.granted;
    forall t, c | Cast(n, s1, net + sent, t, c)
      ensures Cast(n, s, net, t, c) || (granted && t == req.term && c == req.candidate)
    {}
    SoleWinsAreStored(n, s, h);
    if granted {
      forall c | Cast(n, s, net, req.term, c) ensures c == req.candidate {
        assert VoteHeld(s.node, req.term, c);
      }
    }
    assert VotesOk(n, s1, net + sent);
    forall t | t in h.logs && SoleWinner(h, t, n) && s.node.term == t
      ensures !(granted && t == req.term)
    {
      assert KeepsClaim(s.node.votedFor, s.node.log, n, t);
    }
  }

  lemma AnswerVoteKeeps(members: set<NodeId>, n: NodeId, s: Site, net: set<Message>, h: History,
                        candidate: NodeId, term: int, out: SaveOutcome)
    requires n in members && SiteOk(members, n, s, net, h)
    requires PendingVote(candidate, term) in s.pending
    ensures Keeps(members, n, DoAnswerVote(s, candidate, term, out), net, h)
  {
    PersistKeeps(members, n, s, net, h, out);
    var (s1, sent) := DoAnswerVote(s, candidate, term, out);
    assert Cast(n, s, net, term, candidate);
    forall v, t, c | Granted(net + sent, v, t, c)
      ensures Granted(net, v, t, c) || (v == n && t == term && c == candidate && PersistOk(s, out))
    {}
    forall t, c | Cast(n, s1, net + sent, t, c) ensures Cast(n, s, net, t, c) {}
    assert VotesOk(n, s1, net + sent);
    assert forall v, t, c :: Granted(net, v, t, c) ==> Granted(net + sent, v, t, c);
  }

  lemma TallyVoteKeeps(members: set<NodeId>, n: NodeId, s: Site, net: set<Message>, h: History,
                       voter: NodeId, resp: VoteResponse)
    requires n in members && SiteOk(members, n, s, net, h) && s.campaign.Soliciting?
    requires VoteReply(voter, n, s.campaign.req.term, resp) in net
    requires MsgOk(members, VoteReply(voter, n, s.campaign.req.term, resp), h)
    ensures Keeps(members, n, DoTallyVote(s, voter, resp), net, h)
  {
    var (s1, sent) := DoTallyVote(s, voter, resp);
    assert net + sent == net;
    assert forall t, c :: Cast(n, s1, net, t, c) <==> Cast(n, s, net, t, c);
    SoleWinsAreStored(n, s, h);
    if resp.term <= s.node.term && resp.granted {
      assert Granted(net, voter, s.campaign.req.term, n);
    }
  }

  /** Losing an election, or finding out that the term moved on meanwhile. */
  lemma LostElectionKeeps(members: set<NodeId>, n: NodeId, s: Site, net: set<Message>, h: History)
    requires n in members && SiteOk(members, n, s, net, h) && s.campaign.Soliciting?
    requires DoFinishElection(s).0.node.role != Leader
    requires s.node.votedFor in {None, Some(n)}
    ensures Keeps(members, n, DoFinishElection(s), net, h)
  {
    var (s1, sent) := DoFinishElection(s);
    assert net + sent == net;
    assert forall t, c :: Cast(n, s1, net, t, c) <==> Cast(n, s, net, t, c);
    SoleWinsAreStored(n, s, h);
    forall t, c | Cast(n, s, net, t, c) ensures t < s.node.term {
      assert VoteHeld(s.node, t, c);
    }
  }

  lemma QuorumLossKeeps(members: set<NodeId>, n: NodeId, s: Site, net: set<Message>, h: History)
    requires SiteOk(members, n, s, net, h) && s.node.role == Leader
    requires forall t | t in h.logs :: TermLogOk(h.logs, t)
    ensures Keeps(members, n, (s.(node := BecomeFollower(s.node, s.node.term, None)), {}), net, h)
  {
    var s1 := s.(node := BecomeFollower(s.node, s.node.term, None));
    assert net + {} == net;
    forall t, c | Cast(n, s1, net, t, c) ensures Cast(n, s, net, t, c) && t < s.node.term {
      assert Cast(n, s, net, t, c);
      assert VoteHeld(s.node, t, c);
    }
  }

  /** Bookkeeping and commit index are no part of what a site has promised. */
  lemma BookkeepingKeeps(members: set<NodeId>, n: NodeId, s: Site, net: set<Message>, h: History, s1: Site)
    requires SiteOk(members, n, s, net, h)
    requires s1 == s.(node := s.node.(commitIndex := s1.node.commitIndex), repl := s1.repl, calls := s1.calls)
    ensures SiteOk(members, n, s1, net, h)
  {
    assert forall t, c :: Cast(n, s1, net, t, c) <==> Cast(n, s, net, t, c);
  }

  lemma HigherTermKeeps(members: set<NodeId>, n: NodeId, s: Site, net: set<Message>, h: History, term: int)
    requires SiteOk(members, n, s, net, h) && term > s.node.term
    ensures SiteOk(members, n, s.(node := BecomeFollower(s.node, term, None)), net, h)
  {
    var s1 := s.(node := BecomeFollower(s.node, term, None));
    assert forall t, c :: Cast(n, s1, net, t, c) <==> Cast(n, s, net, t, c);
    SoleWinsAreStored(n, s, h);
  }

  lemma AppendReplyKeeps(members: set<NodeId>, n: NodeId, s: Site, net: set<Message>, h: History,
                         from: NodeId, resp: AppendResponse)
    requires SiteOk(members, n, s, net, h) && from in s.calls
    ensures Keeps(members, n, DoReceiveAppendReply(s, from, resp), net, h)
  {
    hide SiteOk, OnAppendReply;
    var (s1, sent) := DoReceiveAppendReply(s, from, resp);
    assert net + sent == net;
    ReplyTouchesLittle(s.node, ReplOf(s), from, s.calls[from], resp);
    if resp.term > s.node.term {
      HigherTermKeeps(members, n, s, net, h, resp.term);
      BookkeepingKeeps(members, n, s.(node := BecomeFollower(s.node, resp.term, None)), net, h, s1);
    } else {
      BookkeepingKeeps(members, n, s, net, h, s1);
    }
  }

  lemma CallFailedKeeps(members: set<NodeId>, n: NodeId, s: Site, net: set<Message>, h: History, to: NodeId)
    requires SiteOk(members, n, s, net, h)
    ensures Keeps(members, n, DoCallFailed(s, to), net, h)
  {
    hide SiteOk;
    assert net + {} == net;
    BookkeepingKeeps(members, n, s, net, h, DoCallFailed(s, to).0);
  }

  lemma CrashKeeps(members: set<NodeId>, n: NodeId, s: Site, net: set<Message>, h: History)
    requires SiteOk(members, n, s, net, h)
    ensures Keeps(members, n, DoCrash(s), net, h)
  {
    var (s1, sent) := DoCrash(s);
    assert net + sent == net;
    forall t, c | Cast(n, s1, net, t, c) ensures Cast(n, s, net, t, c) && Granted(net, n, t, c) {}
  }

  // ---- replication ----

  /** Log matching, for any two logs with the same source. */
  lemma SourcedLogsMatch(logs: map<int, seq<Entry>>, a: seq<Entry>, b: seq<Entry>, k: nat)
    requires Sourced(logs, a) && Sourced(logs, b)
    requires k < |a| && k < |b| && a[k].term == b[k].term
    ensures a[..k + 1] == b[..k + 1]
  {
    assert SourcedAt(logs, a, k) && SourcedAt(logs, b, k);
  }

  /** An accepted request leaves exactly the log it speaks for. */
  lemma AcceptedLogIsClaimed(logs: map<int, seq<Entry>>, s: NodeState, req: AppendRequest)
    requires s.base == 0 && Sourced(logs, s.log) && TermsUpTo(s.log, s.term)
    requires RequestOk(logs, req) && CheckPrevLog(s, req.prevLogIndex, req.prevLogTerm)
    ensures req.prevLogIndex > 0 ==> req.prevLogTerm != -1
    ensures Merge(s.log, 0, req.prevLogIndex, req.entries) == Claimed(logs, req)
  {
    var full := Claimed(logs, req);
    forall k | 0 <= k < |s.log| && k < |full| && s.log[k].term == full[k].term
      ensures AgreesAbove(s.log, 0, full, k + 1)
    {
      SourcedLogsMatch(logs, s.log, full, k);
      assert s.log[..k + 1] == full[..k + 1];
      forall j | 0 <= j < k + 1 ensures s.log[j] == full[j] {
        assert s.log[..k + 1][j] == full[..k + 1][j];
      }
    }
    assert MatchesAbove(s.log, 0, full);
    AcceptedMergeIsExact(s, req, full);
  }

  lemma AcceptedTerms(logs: map<int, seq<Entry>>, s: NodeState, req: AppendRequest)
    requires s.base == 0 && Sourced(logs, s.log) && TermsUpTo(s.log, s.term) && s.term <= req.term
    requires RequestOk(logs, req) && CheckPrevLog(s, req.prevLogIndex, req.prevLogTerm)
    ensures req.prevLogIndex > 0 ==> req.prevLogTerm != -1
    ensures TermsUpTo(Claimed(logs, req), req.term)
  {
    AcceptedLogIsClaimed(logs, s, req);
    if req.prevLogIndex > 0 {
      var prev := req.prevLogIndex;
      assert SourcedAt(logs, s.log, prev - 1);
      forall i | 0 <= i < prev ensures Claimed(logs, req)[i] == s.log[i] {
        assert s.log[..prev][i] == logs[req.prevLogTerm][..prev][i];
      }
    }
  }

  /** What a received append can do to a node, as far as the invariant cares. */
  ghost predicate AppendEffect(logs: map<int, seq<Entry>>, s: NodeState, req: AppendRequest, r: NodeState) {
    && r.id == s.id && r.peers == s.peers && r.base == s.base && r.baseTerm == s.baseTerm
    && (req.term < s.term ==> r == s)
    && (req.term >= s.term ==>
          && r.role == Follower && r.term == req.term
          && r.votedFor == (if req.term > s.term || s.role != Follower then None else s.votedFor))
    && (!r.dirty ==> !s.dirty && ToDisk(r) == ToDisk(s))
    && Sourced(logs, r.log) && TermsUpTo(r.log, r.term)
  }

  lemma AcceptedLogOk(logs: map<int, seq<Entry>>, s: NodeState, req: AppendRequest)
    requires s.base == 0 && Sourced(logs, s.log) && TermsUpTo(s.log, s.term) && s.term <= req.term
    requires RequestOk(logs, req) && CheckPrevLog(s, req.prevLogIndex, req.prevLogTerm)
    ensures var r := Merge(s.log, 0, req.prevLogIndex, req.entries);
            && Sourced(logs, r) && TermsUpTo(r, req.term)
            && (!Merged(s.log, 0, req.prevLogIndex, req.entries) ==> r == s.log)
  {
    AcceptedLogIsClaimed(logs, s, req);
    AcceptedTerms(logs, s, req);
    if !Merged(s.log, 0, req.prevLogIndex, req.entries) {
      UnreportedMergeKeepsLog(s.log, 0, req.prevLogIndex, req.entries);
    }
  }

  lemma AppendHasEffect(logs: map<int, seq<Entry>>, s: NodeState, req: AppendRequest)
    requires s.base == 0 && Sourced(logs, s.log) && TermsUpTo(s.log, s.term) && RequestOk(logs, req)
    ensures AppendEffect(logs, s, req, DecideAppend(s, req).state)
  {
    if req.term >= s.term {
      var s1 := FollowSender(s, req);
      var r := DecideAppend(s, req).state;
      assert TermsUpTo(s1.log, s1.term);
      if CheckPrevLog(s1, req.prevLogIndex, req.prevLogTerm) {
        AcceptedLogOk(logs, s1, req);
        assert r.log == Merge(s1.log, 0, req.prevLogIndex, req.entries);
      } else {
        assert r == s1;
      }
    }
  }

  lemma AppendEffectKeeps(members: set<NodeId>, n: NodeId, s: Site, net: set<Message>, h: History, req: AppendRequest,
                          r: NodeState)
    requires SiteOk(members, n, s, net, h) && MsgOk(members, Append(n, req), h)
    requires AppendEffect(h.logs, s.node, req, r)
    ensures SiteOk(members, n, s.(node := r), net, h)
  {
    var s1 := s.(node := r);
    assert forall t, c :: Cast(n, s1, net, t, c) <==> Cast(n, s, net, t, c);
    SoleWinsAreStored(n, s, h);
    forall t | t in h.logs && SoleWinner(h, t, n) && r.term == t ensures r == s.node {}
  }

  lemma ReceiveAppendKeeps(members: set<NodeId>, n: NodeId, s: Site, net: set<Message>, h: History, req: AppendRequest)
    requires n in members && SiteOk(members, n, s, net, h)
    requires MsgOk(members, Append(n, req), h)
    ensures Keeps(members, n, DoReceiveAppend(s, req), net, h)
  {
    var r := DecideAppend(s.node, req).state;
    AppendHasEffect(h.logs, s.node, req);
    AppendEffectKeeps(members, n, s, net, h, req, r);
    var (s1, sent) := DoReceiveAppend(s, req);
    assert forall v, t, c :: Granted(net + sent, v, t, c) <==> Granted(net, v, t, c);
    assert forall t, c :: Cast(n, s1, net + sent, t, c) <==> Cast(n, s.(node := r), net, t, c);
  }

  lemma AnswerAppendKeeps(members: set<NodeId>, n: NodeId, s: Site, net: set<Message>, h: History,
                          req: AppendRequest, term: int, out: SaveOutcome)
    requires n in members && SiteOk(members, n, s, net, h)
    ensures Keeps(members, n, DoAnswerAppend(s, req, term, out), net, h)
  {
    PersistKeeps(members, n, s, net, h, out);
    var (s1, sent) := DoAnswerAppend(s, req, term, out);
    assert forall v, t, c :: Granted(net + sent, v, t, c) <==> Granted(net, v, t, c);
    assert forall t, c :: Cast(n, s1, net + sent, t, c) <==> Cast(n, s, net, t, c);
  }

  /** A request built from a sourced log speaks for that log. */
  lemma BuiltRequestOk(logs: map<int, seq<Entry>>, s: NodeState, next: nat)
    requires s.base == 0 && next >= 1 && Sourced(logs, s.log) && TermsUpTo(s.log, s.term)
    ensures RequestOk(logs, BuildAppend(s, next))
  {
    var req := BuildAppend(s, next);
    var prev := next - 1;
    if prev <= |s.log| {
      if prev > 0 {
        assert SourcedAt(logs, s.log, prev - 1);
        assert s.log[..prev] == logs[req.prevLogTerm][..prev];
        assert s.log[prev - 1] == s.log[..prev][prev - 1] == logs[req.prevLogTerm][..prev][prev - 1];
      }
      assert Claimed(logs, req) == s.log;
    }
  }

  lemma SendKeeps(members: set<NodeId>, n: NodeId, s: Site, net: set<Message>, h: History, m: Message)
    requires SiteOk(members, n, s, net, h) && MsgOk(members, m, h) && m.Append?
    ensures Keeps(members, n, (s, {m}), net, h)
  {
    assert forall v, t, c :: Granted(net + {m}, v, t, c) <==> Granted(net, v, t, c);
    assert forall t, c :: Cast(n, s, net + {m}, t, c) <==> Cast(n, s, net, t, c);
  }

  lemma ReplicateKeeps(members: set<NodeId>, n: NodeId, s: Site, net: set<Message>, h: History, to: NodeId)
    requires n in members && SiteOk(members, n, s, net, h)
    requires s.node.role == Leader && to != n
    requires NextFor(ReplOf(s), to) >= s.node.base + 1
    ensures Keeps(members, n, DoReplicate(s, to), net, h)
  {
    BuiltRequestOk(h.logs, s.node, NextFor(ReplOf(s), to));
    assert h.wins[s.node.term][|h.wins[s.node.term]| - 1] in h.wins[s.node.term];
    assert Won(h, s.node.term, n);
    var s1 := DoReplicate(s, to).0;
    BookkeepingKeeps(members, n, s, net, h, s1);
    SendKeeps(members, n, s1, net, h, Append(to, CallOf(s, to)));
  }
}
