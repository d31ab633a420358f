/** A cluster as a step system. A site is one machine: the volatile node, its
    durable state, its own election in progress, replies decided but not yet
    persisted, and the leader's bookkeeping with the calls it has outstanding. The
    network is a growing set of messages, so loss, duplication, delay and
    reordering are all runs of the model. */
module Cluster {
  import opened Basics
  import opened Commands
  import opened RaftNode
  import opened LeaderLogic

  /** startElection between its lock regions. */
  datatype Campaign =
    | Idle
    | Starting(req: VoteRequest)                          // term taken, not yet persisted
    | Soliciting(req: VoteRequest, tally: set<NodeId>)    // requests sent, grants counted so far

  datatype Pending =
    | PendingVote(candidate: NodeId, term: int)           // a granted vote awaiting its persist
    | PendingAppend(areq: AppendRequest, term: int)       // an accepted append awaiting its persist

  datatype Message =
    | Solicit(vreq: VoteRequest)
    | VoteReply(voter: NodeId, candidate: NodeId, reqTerm: int, vresp: VoteResponse)
    | Append(to: NodeId, areq: AppendRequest)
    | AppendReply(from: NodeId, areq: AppendRequest, aresp: AppendResponse)

  /** `repl` is None until replState first builds it; `calls` holds the request
      replicateToPeer is waiting on, per peer. */
  datatype Site = Site(
    node: NodeState, disk: Durable, campaign: Campaign, pending: set<Pending>,
    repl: Option<Repl>, calls: map<NodeId, AppendRequest>)

  datatype Cluster = Cluster(sites: map<NodeId, Site>, net: set<Message>)

  datatype Step =
    | Timeout(n: NodeId)
    | SaveCampaign(n: NodeId, out: SaveOutcome)
    | ReceiveVote(n: NodeId, vreq: VoteRequest)
    | AnswerVote(n: NodeId, candidate: NodeId, term: int, out: SaveOutcome)
    | TallyVote(n: NodeId, voter: NodeId, vresp: VoteResponse)
    | FinishElection(n: NodeId)
    | Propose(n: NodeId, cmd: Command)
    | Save(n: NodeId, out: SaveOutcome)
    | Replicate(n: NodeId, to: NodeId)
    | ReceiveAppend(n: NodeId, areq: AppendRequest)
    | AnswerAppend(n: NodeId, areq: AppendRequest, term: int, out: SaveOutcome)
    | ReceiveAppendReply(n: NodeId, from: NodeId, aresp: AppendResponse)
    | CallFailed(n: NodeId, to: NodeId)                   // the transport gives up on a call
    | QuorumLoss(n: NodeId)
    | Crash(n: NodeId)

  /** No accepted append of this machine waits for its save. */
  ghost predicate NoneWaiting(s: Site) { forall req, t :: PendingAppend(req, t) !in s.pending }

  // ---- what a step does at its site: the new site and the messages sent ----

  /** persist: skipped when nothing is dirty, and then it cannot fail. */
  function PersistSite(s: Site, out: SaveOutcome): Site {
    if !s.node.dirty || out == FailedUnwritten then s
    else s.(disk := ToDisk(s.node), node := s.node.(dirty := out == FailedWritten))
  }

  predicate PersistOk(s: Site, out: SaveOutcome) { !s.node.dirty || out == Saved }

  function DoTimeout(s: Site): (Site, set<Message>) {
    var node := BecomeCandidate(s.node);
    (s.(node := node, campaign := Starting(SolicitRequest(node))), {})
  }

  /** The campaign goes out only if the new term and self vote were saved. */
  function DoSaveCampaign(s: Site, out: SaveOutcome): (Site, set<Message>)
    requires s.campaign.Starting?
  {
    if PersistOk(s, out)
    then (PersistSite(s, out).(campaign := Soliciting(s.campaign.req, {})), {Solicit(s.campaign.req)})
    else (PersistSite(s, out).(campaign := Idle), {})
  }

  function DoReceiveVote(s: Site, req: VoteRequest): (Site, set<Message>) {
    var (node, resp) := DecideVote(s.node, req);
    if resp.granted
    then (s.(node := node, pending := s.pending + {PendingVote(req.candidate, req.term)}), {})
    else (s.(node := node), {VoteReply(node.id, req.candidate, req.term, resp)})
  }

  /** A vote is granted on the wire only after a successful persist. */
  function DoAnswerVote(s: Site, candidate: NodeId, term: int, out: SaveOutcome): (Site, set<Message>) {
    var s1 := PersistSite(s, out).(pending := s.pending - {PendingVote(candidate, term)});
    (s1, {VoteReply(s.node.id, candidate, term,
                    if PersistOk(s, out) then VoteResponse(term, true) else VoteResponse(s.node.term, false))})
  }

  function DoTallyVote(s: Site, voter: NodeId, resp: VoteResponse): (Site, set<Message>)
    requires s.campaign.Soliciting?
  {
    if resp.term > s.node.term
    then (s.(node := BecomeFollower(s.node, resp.term, None), campaign := Idle), {})
    else if resp.granted then (s.(campaign := s.campaign.(tally := s.campaign.tally + {voter})), {})
    else (s, {})
  }

  function DoFinishElection(s: Site): (Site, set<Message>)
    requires s.campaign.Soliciting?
  {
    (s.(node := ConcludeElection(s.node, s.campaign.req, |s.campaign.tally| + 1), campaign := Idle), {})
  }

  function DoReceiveAppend(s: Site, req: AppendRequest): (Site, set<Message>) {
    var out := DecideAppend(s.node, req);
    if out.changed
    then (s.(node := out.state, pending := s.pending + {PendingAppend(req, out.resp.term)}), {})
    else (s.(node := out.state), {AppendReply(s.node.id, req, out.resp)})
  }

  function DoAnswerAppend(s: Site, req: AppendRequest, term: int, out: SaveOutcome): (Site, set<Message>) {
    var s1 := PersistSite(s, out).(pending := s.pending - {PendingAppend(req, term)});
    (s1, {AppendReply(s.node.id, req,
                      if PersistOk(s, out) then AppendResponse(term, true) else AppendResponse(s.node.term, false))})
  }

  /** replState. */
  function ReplOf(s: Site): Repl {
    if s.repl.Some? then s.repl.value else FreshRepl(s.node)
  }

  function CallOf(s: Site, to: NodeId): AppendRequest
    requires NextFor(ReplOf(s), to) >= s.node.base + 1
  {
    BuildAppend(s.node, NextFor(ReplOf(s), to))
  }

  function DoReplicate(s: Site, to: NodeId): (Site, set<Message>)
    requires NextFor(ReplOf(s), to) >= s.node.base + 1
  {
    (s.(repl := Some(Launch(ReplOf(s), to)), calls := s.calls[to := CallOf(s, to)]), {Append(to, CallOf(s, to))})
  }

  function DoReceiveAppendReply(s: Site, from: NodeId, resp: AppendResponse): (Site, set<Message>)
    requires from in s.calls
  {
    var out := OnAppendReply(s.node, ReplOf(s), from, s.calls[from], resp);
    (s.(node := out.state, repl := Some(out.repl), calls := s.calls - {from}), {})
  }

  function DoCallFailed(s: Site, to: NodeId): (Site, set<Message>) {
    (s.(repl := Some(Land(ReplOf(s), to)), calls := s.calls - {to}), {})
  }

  function DoCrash(s: Site): (Site, set<Message>) {
    (Site(Reload(s.node.id, s.node.peers, s.disk), s.disk, Idle, {}, None, map[]), {})
  }

  // ---- the step system ----

  predicate Enabled(c: Cluster, step: Step) {
    && step.n in c.sites
    && var s := c.sites[step.n];
       match step
       case Timeout(_) => s.node.role != Leader && s.campaign.Idle?
       case SaveCampaign(_, _) => s.campaign.Starting?
       case ReceiveVote(n, req) => Solicit(req) in c.net && req.candidate != n
       case AnswerVote(_, cand, term, _) => PendingVote(cand, term) in s.pending
       case TallyVote(n, voter, resp) =>
         && s.campaign.Soliciting?
         && |s.campaign.tally| + 1 < Majority(|s.node.peers|)
         && VoteReply(voter, n, s.campaign.req.term, resp) in c.net
       case FinishElection(_) => s.campaign.Soliciting?
       case Propose(_, _) => s.node.role == Leader
       case Save(_, _) => true
       case Replicate(n, to) =>
         && s.node.role == Leader && to in c.sites && to != n
         && !Flying(ReplOf(s), to) && NextFor(ReplOf(s), to) >= s.node.base + 1
       case ReceiveAppend(n, req) => Append(n, req) in c.net
       case AnswerAppend(_, req, term, _) => PendingAppend(req, term) in s.pending
       case ReceiveAppendReply(_, from, resp) => from in s.calls && AppendReply(from, s.calls[from], resp) in c.net
       case CallFailed(_, to) => to in s.calls
       case QuorumLoss(_) => s.node.role == Leader
       case Crash(_) => true
  }

  function SiteStep(c: Cluster, step: Step): (Site, set<Message>)
    requires Enabled(c, step)
  {
    var s := c.sites[step.n];
    match step
    case Timeout(_) => DoTimeout(s)
    case SaveCampaign(_, out) => DoSaveCampaign(s, out)
    case ReceiveVote(_, req) => DoReceiveVote(s, req)
    case AnswerVote(_, cand, term, out) => DoAnswerVote(s, cand, term, out)
    case TallyVote(_, voter, resp) => DoTallyVote(s, voter, resp)
    case FinishElection(_) => DoFinishElection(s)
    case Propose(_, cmd) => (s.(node := AppendOwn(s.node, cmd)), {})
    case Save(_, out) => (PersistSite(s, out), {})
    case Replicate(_, to) => DoReplicate(s, to)
    case ReceiveAppend(_, req) => DoReceiveAppend(s, req)
    case AnswerAppend(_, req, term, out) => DoAnswerAppend(s, req, term, out)
    case ReceiveAppendReply(_, from, resp) => DoReceiveAppendReply(s, from, resp)
    case CallFailed(_, to) => DoCallFailed(s, to)
    case QuorumLoss(_) => (s.(node := BecomeFollower(s.node, s.node.term, None)), {})
    case Crash(_) => DoCrash(s)
  }

  function Next(c: Cluster, step: Step): Cluster
    requires Enabled(c, step)
  {
    var (s, sent) := SiteStep(c, step);
    Cluster(c.sites[step.n := s], c.net + sent)
  }

  /** The code's soft spot. The last branch of startElection clears votedFor in
      whatever term the node has reached by then. A step is clean unless that
      reset throws away a vote for another node. */
  predicate Clean(c: Cluster, step: Step)
    requires Enabled(c, step)
  {
    step.FinishElection? ==>
      var s := c.sites[step.n];
      DoFinishElection(s).0.node.role == Leader || s.node.votedFor in {None, Some(step.n)}
  }

  ghost predicate IsRun(c: Cluster, steps: seq<Step>)
    decreases |steps|
  {
    steps == [] || (Enabled(c, steps[0]) && IsRun(Next(c, steps[0]), steps[1..]))
  }

  ghost predicate IsCleanRun(c: Cluster, steps: seq<Step>)
    decreases |steps|
  {
    steps == [] || (Enabled(c, steps[0]) && Clean(c, steps[0]) && IsCleanRun(Next(c, steps[0]), steps[1..]))
  }

  ghost function After(c: Cluster, steps: seq<Step>): Cluster
    requires IsRun(c, steps)
    decreases |steps|
  {
    if steps == [] then c else After(Next(c, steps[0]), steps[1..])
  }

  /** Peers are distinct and exclude the node itself. */
  ghost predicate PeersOf(members: set<NodeId>, id: NodeId, peers: seq<NodeId>) {
    && |peers| == |members| - 1
    && forall p :: p in members && p != id <==> p in peers
  }

  ghost predicate Initial(c: Cluster) {
    && |c.sites| >= 2
    && c.net == {}
    && forall n | n in c.sites ::
         && PeersOf(c.sites.Keys, n, c.sites[n].node.peers)
         && c.sites[n] == Site(Reload(n, c.sites[n].node.peers, BLANK_DISK), BLANK_DISK, Idle, {}, None, map[])
  }
}
