/** The limits of election safety. The last branch of startElection clears
    votedFor in whatever term the node has reached by then, so a vote cast
    while the node's own election was still running can be forgotten. Here is
    exactly when that happens, and a run in which it elects two leaders. */
module VoteReset {
  import opened Basics
  import opened Commands
  import opened RaftNode
  import opened Cluster
  import opened LeaderLogic
  import opened Runs

  // ---- exactly when a vote is forgotten ----

  /** A vote for another node survives the step: unless the machine crashes,
      it stays recorded until the term moves on. */
  ghost predicate KeepsVote(c: Cluster, step: Step)
    requires Enabled(c, step)
  {
    var before, after := c.sites[step.n].node, Next(c, step).sites[step.n].node;
    before.votedFor.Some? && before.votedFor.value != step.n ==>
      after.term > before.term || (after.term == before.term && after.votedFor == before.votedFor)
  }

  /** Candidates and leaders have voted for themselves. */
  ghost predicate SelfVotes(c: Cluster) {
    forall n | n in c.sites ::
      c.sites[n].node.id == n && (c.sites[n].node.role != Follower ==> c.sites[n].node.votedFor == Some(n))
  }

  lemma StepKeepsSelfVotes(c: Cluster, step: Step)
    requires SelfVotes(c) && Enabled(c, step)
    ensures SelfVotes(Next(c, step))
  {
    hide Merge, MergeChanges, TermAt, EntryAt, LastIndex, LastTerm, BuildAppend, Majority, OnAppendReply;
    var s, s1 := c.sites[step.n], SiteStep(c, step).0;
    if step.ReceiveAppendReply? { ReplyTouchesLittle(s.node, ReplOf(s), step.from, s.calls[step.from], step.aresp); }
    assert s1.node.id == step.n && (s1.node.role != Follower ==> s1.node.votedFor == Some(step.n));
  }

  lemma {:induction false} RunKeepsSelfVotes(c: Cluster, steps: seq<Step>)
    requires SelfVotes(c) && IsRun(c, steps)
    ensures SelfVotes(After(c, steps))
    decreases |steps|
  {
    if steps == [] {
    } else {
      StepKeepsSelfVotes(c, steps[0]);
      RunKeepsSelfVotes(Next(c, steps[0]), steps[1..]);
    }
  }

  ghost predicate Remembers(before: NodeState, after: NodeState) {
    before.votedFor.Some? && before.votedFor.value != before.id ==>
      after.term > before.term || (after.term == before.term && after.votedFor == before.votedFor)
  }

  lemma DecisionsRemember(s: NodeState, vreq: VoteRequest, areq: AppendRequest)
    requires s.role != Follower ==> s.votedFor == Some(s.id)
    ensures Remembers(s, DecideVote(s, vreq).0)
    ensures Remembers(s, DecideAppend(s, areq).state)
  {
    var r := DecideAppend(s, areq).state;
    assert r.term == Max(s.term, areq.term);
    assert areq.term <= s.term && s.role == Follower ==> r.votedFor == s.votedFor;
  }

  lemma ForgottenExactlyByReset(c: Cluster, step: Step)
    requires SelfVotes(c) && Enabled(c, step) && !step.Crash?
    ensures KeepsVote(c, step) <==> Clean(c, step)
  {
    var before, after := c.sites[step.n].node, SiteStep(c, step).0.node;
    assert Next(c, step).sites[step.n].node == after;
    match step {
      case ReceiveVote(_, req) => DecisionsRemember(before, req, AppendRequest(0, "", 0, 0, [], 0));
      case ReceiveAppend(_, req) => DecisionsRemember(before, VoteRequest(0, "", 0, 0), req);
      case _ =>
    }
  }

  /** In every reachable state, a step that is not a crash forgets a vote for
      another node if and only if it is the reset at the end of an election on
      a node that meanwhile voted for someone else. */
  lemma VoteForgottenExactlyByReset(c: Cluster, steps: seq<Step>, step: Step)
    requires Initial(c) && IsRun(c, steps)
    requires Enabled(After(c, steps), step) && !step.Crash?
    ensures KeepsVote(After(c, steps), step) <==> Clean(After(c, steps), step)
  {
    RunKeepsSelfVotes(c, steps);
    ForgottenExactlyByReset(After(c, steps), step);
  }

  // ---- what keeps a run clean ----

  /** No machine handles a vote request while its own election is running. */
  ghost predicate Undisturbed(c: Cluster, steps: seq<Step>)
    decreases |steps|
  {
    steps == []
    || (&& Enabled(c, steps[0])
        && (steps[0].ReceiveVote? ==> c.sites[steps[0].n].campaign == Idle)
        && Undisturbed(Next(c, steps[0]), steps[1..]))
  }

  ghost predicate CampaignersOwnVote(c: Cluster) {
    forall n | n in c.sites ::
      && c.sites[n].node.id == n
      && (c.sites[n].campaign != Idle ==> c.sites[n].node.votedFor in {None, Some(n)})
  }

  lemma StepKeepsOwnVote(c: Cluster, step: Step)
    requires CampaignersOwnVote(c) && Enabled(c, step)
    requires step.ReceiveVote? ==> c.sites[step.n].campaign == Idle
    ensures Clean(c, step) && CampaignersOwnVote(Next(c, step))
  {
    hide Merge, MergeChanges, TermAt, EntryAt, LastIndex, LastTerm, BuildAppend, Majority, OnAppendReply;
    var s, s1 := c.sites[step.n], SiteStep(c, step).0;
    if step.ReceiveAppendReply? { ReplyTouchesLittle(s.node, ReplOf(s), step.from, s.calls[step.from], step.aresp); }
    assert s1.node.id == step.n && (s1.campaign != Idle ==> s1.node.votedFor in {None, Some(step.n)});
  }

  lemma {:induction false} UndisturbedFrom(c: Cluster, steps: seq<Step>)
    requires CampaignersOwnVote(c) && Undisturbed(c, steps)
    ensures IsCleanRun(c, steps)
    decreases |steps|
  {
    hide Clean, Next, Enabled, CampaignersOwnVote;
    if steps == [] {
    } else {
      StepKeepsOwnVote(c, steps[0]);
      UndisturbedFrom(Next(c, steps[0]), steps[1..]);
    }
  }

  /** So election safety and log matching hold of every run in which elections
      are not interrupted by vote requests. */
  lemma UndisturbedRunIsClean(c: Cluster, steps: seq<Step>)
    requires Initial(c) && Undisturbed(c, steps)
    ensures IsCleanRun(c, steps)
  {
    UndisturbedFrom(c, steps);
  }

  // ---- what goes wrong then ----

  lemma {:induction false} CleanPrefix(c: Cluster, steps: seq<Step>, k: nat)
    requires IsCleanRun(c, steps) && k < |steps|
    ensures IsRun(c, steps[..k]) && Enabled(After(c, steps[..k]), steps[k]) && Clean(After(c, steps[..k]), steps[k])
    decreases |steps|
  {
    if k > 0 {
      CleanPrefix(Next(c, steps[0]), steps[1..], k - 1);
      assert steps[1..][..k - 1] == steps[..k][1..];
    } else {
      assert steps[..0] == [];
    }
  }

  lemma {:induction false} CleanIsPrefixClosed(c: Cluster, steps: seq<Step>, prefix: seq<Step>)
    requires IsCleanRun(c, steps) && prefix <= steps
    ensures IsCleanRun(c, prefix)
    decreases |steps|
  {
    if prefix == [] {
    } else {
      CleanIsPrefixClosed(Next(c, steps[0]), steps[1..], prefix[1..]);
    }
  }

  ghost predicate NoCrash(steps: seq<Step>) { forall i | 0 <= i < |steps| :: !steps[i].Crash? }

  /** One more step at site `n`, which turns it into `s1`. */
  lemma Fire(c: Cluster, steps: seq<Step>, k: Cluster, step: Step, s1: Site, sent: set<Message>)
    returns (longer: seq<Step>, k1: Cluster)
    requires IsRun(c, steps) && After(c, steps) == k && NoCrash(steps) && !step.Crash?
    requires Enabled(k, step) && SiteStep(k, step) == (s1, sent)
    ensures longer == steps + [step] && NoCrash(longer) && IsRun(c, longer) && After(c, longer) == k1
    ensures k1.sites == k.sites[step.n := s1] && k1.net == k.net + sent
  {
    Extend(c, steps, step);
    longer := steps + [step];
    k1 := After(c, longer);
  }

  // Requests and grants of the run below: "a" campaigns in term 1, "b" and "c" in term 2.
  const ASK_A := VoteRequest(1, "a", 0, 0)
  const ASK_B := VoteRequest(2, "b", 0, 0)
  const ASK_C := VoteRequest(2, "c", 0, 0)
  const YES := VoteResponse(2, true)

  function Machine(id: NodeId, peers: seq<NodeId>, role: Role, term: int, vote: Option<NodeId>, leader: Option<NodeId>,
                   log: seq<Entry>, dirty: bool, disk: Durable, campaign: Campaign, pending: set<Pending>): Site {
    Site(NodeState(id, peers, role, term, vote, leader, log, 0, 0, 0, 0, dirty), disk, campaign, pending, None, map[])
  }

  /** A saved candidate that has sent its requests and heard from `tally`. */
  function Campaigning(req: VoteRequest, peers: seq<NodeId>, tally: set<NodeId>): Site {
    Machine(req.candidate, peers, Candidate, req.term, Some(req.candidate), None, [], false,
            Durable(req.term, Some(req.candidate), [], 0, 0), Soliciting(req, tally), {})
  }

  /** A leader of term 2 with the given log. */
  function Leading(id: NodeId, peers: seq<NodeId>, log: seq<Entry>): Site {
    Machine(id, peers, Leader, 2, Some(id), Some(id), log, log != [], Durable(2, Some(id), [], 0, 0), Idle, {})
  }

  /** "a" in term 2 with its in-memory vote, its stored vote, and its campaign. */
  function Voter(vote: Option<NodeId>, stored: Durable, dirty: bool, campaign: Campaign, pending: set<Pending>): Site {
    Machine("a", ["b", "c"], Follower, 2, vote, None, [], dirty, stored, campaign, pending)
  }

  const STORED_A := Durable(1, Some("a"), [], 0, 0)
  const STORED_B := Durable(2, Some("b"), [], 0, 0)
  const STORED_C := Durable(2, Some("c"), [], 0, 0)
  const FIRST_VOTE := VoteReply("a", "b", 2, YES)
  const SECOND_VOTE := VoteReply("a", "c", 2, YES)

  /** A machine whose first attempt cannot be saved campaigns in term 2. */
  lemma SecondAttempt(c: Cluster, before: seq<Step>, k: Cluster, id: NodeId, peers: seq<NodeId>)
    returns (steps: seq<Step>, k1: Cluster)
    requires IsRun(c, before) && NoCrash(before) && After(c, before) == k && id in k.sites
    requires k.sites[id] == Fresh(id, peers)
    ensures IsRun(c, steps) && NoCrash(steps) && After(c, steps) == k1
    ensures k1.sites == k.sites[id := Campaigning(VoteRequest(2, id, 0, 0), peers, {})]
    ensures k1.net == k.net + {Solicit(VoteRequest(2, id, 0, 0))}
  {
    var s1 := Machine(id, peers, Candidate, 1, Some(id), None, [], true, BLANK_DISK, Starting(VoteRequest(1, id, 0, 0)), {});
    var s3 := Machine(id, peers, Candidate, 2, Some(id), None, [], true, BLANK_DISK, Starting(VoteRequest(2, id, 0, 0)), {});
    steps, k1 := Fire(c, before, k, Timeout(id), s1, {});
    steps, k1 := Fire(c, steps, k1, SaveCampaign(id, FailedUnwritten), s1.(campaign := Idle), {});
    steps, k1 := Fire(c, steps, k1, Timeout(id), s3, {});
    steps, k1 := Fire(c, steps, k1, SaveCampaign(id, Saved), Campaigning(VoteRequest(2, id, 0, 0), peers, {}),
                      {Solicit(VoteRequest(2, id, 0, 0))});
  }

  /** "a" campaigns in term 1, the others in term 2. */
  lemma AllCampaign() returns (steps: seq<Step>, k: Cluster)
    ensures IsRun(Start(), steps) && NoCrash(steps) && After(Start(), steps) == k
    ensures k.sites
            == map["a" := Campaigning(ASK_A, PA, {}), "b" := Campaigning(ASK_B, PB, {}), "c" := Campaigning(ASK_C, PC, {})]
    ensures {Solicit(ASK_A), Solicit(ASK_B), Solicit(ASK_C)} <= k.net
  {
    var c := Start();
    var a0 := Machine("a", PA, Candidate, 1, Some("a"), None, [], true, BLANK_DISK, Starting(ASK_A), {});
    steps, k := Fire(c, [], c, Timeout("a"), a0, {});
    steps, k := Fire(c, steps, k, SaveCampaign("a", Saved), Campaigning(ASK_A, PA, {}), {Solicit(ASK_A)});
    steps, k := SecondAttempt(c, steps, k, "b", PB);
    steps, k := SecondAttempt(c, steps, k, "c", PC);
  }

  /** "a" votes for "b", and the end of its own election makes it forget. */
  lemma VoteAndForget(c: Cluster, before: seq<Step>, k: Cluster) returns (steps: seq<Step>, k1: Cluster)
    requires IsRun(c, before) && NoCrash(before) && After(c, before) == k
    requires "a" in k.sites && k.sites["a"] == Campaigning(ASK_A, PA, {}) && Solicit(ASK_B) in k.net
    ensures IsRun(c, steps) && NoCrash(steps) && After(c, steps) == k1 && |steps| == |before| + 3
    ensures k1.sites == k.sites["a" := Voter(None, STORED_B, true, Idle, {})]
    ensures k1.net == k.net + {FIRST_VOTE}
    ensures !IsCleanRun(c, steps)
  {
    var waiting, voted := Soliciting(ASK_A, {}), Voter(Some("b"), STORED_B, false, Soliciting(ASK_A, {}), {});
    assert DoReceiveVote(k.sites["a"], ASK_B).0.pending == {PendingVote("b", 2)};
    steps, k1 := Fire(c, before, k, ReceiveVote("a", ASK_B),
                      Voter(Some("b"), STORED_A, true, waiting, {PendingVote("b", 2)}), {});
    steps, k1 := Fire(c, steps, k1, AnswerVote("a", "b", 2, Saved), voted, {FIRST_VOTE});
    var k2, almost := k1, steps;
    steps, k1 := Fire(c, steps, k1, FinishElection("a"), Voter(None, STORED_B, true, Idle, {}), {});
    assert steps[..|almost|] == almost && steps[|almost|] == FinishElection("a");
    if IsCleanRun(c, steps) { CleanPrefix(c, steps, |almost|); }
  }

  /** So "a" votes again in the same term, for "c". */
  lemma VoteAgain(c: Cluster, before: seq<Step>, k: Cluster) returns (steps: seq<Step>, k1: Cluster)
    requires IsRun(c, before) && NoCrash(before) && After(c, before) == k
    requires "a" in k.sites && k.sites["a"] == Voter(None, STORED_B, true, Idle, {}) && Solicit(ASK_C) in k.net
    ensures IsRun(c, steps) && NoCrash(steps) && After(c, steps) == k1 && before <= steps
    ensures k1.sites == k.sites["a" := Voter(Some("c"), STORED_C, false, Idle, {})]
    ensures k1.net == k.net + {SECOND_VOTE}
  {
    assert DoReceiveVote(k.sites["a"], ASK_C).0.pending == {PendingVote("c", 2)};
    steps, k1 := Fire(c, before, k, ReceiveVote("a", ASK_C),
                      Voter(Some("c"), STORED_B, true, Idle, {PendingVote("c", 2)}), {});
    steps, k1 := Fire(c, steps, k1, AnswerVote("a", "c", 2, Saved),
                      Voter(Some("c"), STORED_C, false, Idle, {}), {SECOND_VOTE});
  }

  /** A rival that holds a vote from "a" wins term 2 and creates an entry. */
  lemma WinAndPropose(c: Cluster, before: seq<Step>, k: Cluster, id: NodeId, peers: seq<NodeId>, cmd: Command)
    returns (steps: seq<Step>, k1: Cluster)
    requires IsRun(c, before) && NoCrash(before) && After(c, before) == k && |peers| == 2
    requires id in k.sites && k.sites[id] == Campaigning(VoteRequest(2, id, 0, 0), peers, {})
    requires VoteReply("a", id, 2, YES) in k.net
    ensures IsRun(c, steps) && NoCrash(steps) && After(c, steps) == k1 && before <= steps
    ensures k1.sites == k.sites[id := Leading(id, peers, [Entry(2, cmd)])] && k1.net == k.net
  {
    steps, k1 := Fire(c, before, k, TallyVote(id, "a", YES), Campaigning(VoteRequest(2, id, 0, 0), peers, {"a"}), {});
    steps, k1 := Fire(c, steps, k1, FinishElection(id), Leading(id, peers, []), {});
    assert [] + [Entry(2, cmd)] == [Entry(2, cmd)];
    steps, k1 := Fire(c, steps, k1, Propose(id, cmd), Leading(id, peers, [Entry(2, cmd)]), {});
  }

  /** Clean runs are a real restriction: this run of the code from the initial
      state, in which no machine crashes, is not clean, and it ends with two
      leaders of term 2 whose logs disagree at an index of equal term. */
  lemma UncleanRunBreaksSafety() returns (steps: seq<Step>)
    ensures Initial(Start()) && IsRun(Start(), steps) && !IsCleanRun(Start(), steps)
    ensures NoCrash(steps)
    ensures var r := After(Start(), steps).sites;
            && "b" in r && "c" in r
            && r["b"].node.role == Leader && r["c"].node.role == Leader && r["b"].node.term == r["c"].node.term
            && |r["b"].node.log| == |r["c"].node.log| == 1
            && r["b"].node.log[0].term == r["c"].node.log[0].term
            && r["b"].node.log[0] != r["c"].node.log[0]
  {
    StartIsInitial();
    var c := Start();
    var k;
    steps, k := AllCampaign();
    steps, k := VoteAndForget(c, steps, k);
    var bad := steps;
    steps, k := VoteAgain(c, steps, k);
    steps, k := WinAndPropose(c, steps, k, "b", PB, Clear);
    steps, k := WinAndPropose(c, steps, k, "c", PC, Delete([]));
    if IsCleanRun(c, steps) { CleanIsPrefixClosed(c, steps, bad); }
  }
}
