/** The in-flight flags do their job: in every reachable state of any run, clean or
    not, a peer's flag is up exactly while the leader waits for an answer from it,
    so no second request goes out meanwhile. */
module OneCall {
  import opened Basics
  import opened Commands
  import opened RaftNode
  import opened LeaderLogic
  import opened Cluster

  ghost predicate FlagsTell(s: Site) {
    && s.node.base == 0 && s.disk.base == 0
    && forall p :: p in s.calls <==> Flying(ReplOf(s), p)
  }

  lemma StepKeepsFlags(c: Cluster, step: Step)
    requires Enabled(c, step) && FlagsTell(c.sites[step.n])
    ensures FlagsTell(SiteStep(c, step).0)
  {
    hide LastIndex, LastTerm, Majority, BuildAppend, OnAppendReply, DecideAppend, DecideVote, LogFresh;
    var s := c.sites[step.n];
    if step.ReceiveAppend? { AppendDecision(s.node, step.areq); }
    if step.ReceiveVote? { VoteDecision(s.node, step.vreq); }
    if step.ReceiveAppendReply? {
      ReplyTouchesLittle(s.node, ReplOf(s), step.from, s.calls[step.from], step.aresp);
      ReplyMoves(s.node, ReplOf(s), step.from, s.calls[step.from], step.aresp);
    }
  }

  lemma {:induction false} RunKeepsFlags(c: Cluster, steps: seq<Step>)
    requires IsRun(c, steps) && forall n | n in c.sites :: FlagsTell(c.sites[n])
    ensures forall n | n in After(c, steps).sites :: FlagsTell(After(c, steps).sites[n])
    decreases |steps|
  {
    hide SiteStep, FlagsTell;
    if steps == [] {
    } else {
      StepKeepsFlags(c, steps[0]);
      RunKeepsFlags(Next(c, steps[0]), steps[1..]);
    }
  }

  /** In every reachable state, a leader may send to a peer if and only if no request
      to that peer waits for its answer. */
  lemma OneCallAtATime(c: Cluster, steps: seq<Step>, n: NodeId, to: NodeId)
    requires Initial(c) && IsRun(c, steps)
    ensures var k := After(c, steps);
            n in k.sites && k.sites[n].node.role == Leader && to in k.sites && to != n ==>
              (Enabled(k, Replicate(n, to)) <==> to !in k.sites[n].calls)
  {
    RunKeepsFlags(c, steps);
    var k := After(c, steps);
    if n in k.sites { assert FlagsTell(k.sites[n]); }
  }
}
