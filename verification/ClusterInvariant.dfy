/** The inductive invariant behind election safety and log matching. It talks
    about the cluster and a history the cluster itself never reads: the log
    each term's leader built, and who won each term with which quorum. */
module ClusterInvariant {
  import opened Basics
  import opened Commands
  import opened RaftNode
  import opened Cluster

  datatype Win = Win(leader: NodeId, quorum: set<NodeId>)

  /** `logs[t]` is the leader's log up to the last entry created in term `t`;
      `wins[t]` lists the elections won in term `t`, oldest first. */
  datatype History = History(logs: map<int, seq<Entry>>, wins: map<int, seq<Win>>)

  const NO_HISTORY := History(map[], map[])

  // ---- votes ----

  ghost predicate Granted(net: set<Message>, voter: NodeId, term: int, candidate: NodeId) {
    VoteReply(voter, candidate, term, VoteResponse(term, true)) in net
  }

  ghost predicate VoteHeld(s: NodeState, term: int, candidate: NodeId) {
    s.term > term || (s.term == term && s.votedFor == Some(candidate) && s.role == Follower)
  }

  ghost predicate VoteStored(d: Durable, term: int, candidate: NodeId) {
    d.term > term || (d.term == term && d.votedFor == Some(candidate))
  }

  /** A vote for another node that is on the wire or about to be. */
  ghost predicate Cast(n: NodeId, s: Site, net: set<Message>, term: int, candidate: NodeId) {
    Granted(net, n, term, candidate) || PendingVote(candidate, term) in s.pending
  }

  ghost predicate VotesOk(n: NodeId, s: Site, net: set<Message>) {
    && (forall t, c :: Cast(n, s, net, t, c) ==> c != n && VoteHeld(s.node, t, c))
    && (forall t, c :: Granted(net, n, t, c) ==> VoteStored(s.disk, t, c))
    && (forall t, c1, c2 :: Cast(n, s, net, t, c1) && Cast(n, s, net, t, c2) ==> c1 == c2)
  }

  // ---- logs ----

  ghost predicate SourcedAt(logs: map<int, seq<Entry>>, log: seq<Entry>, i: nat)
    requires i < |log|
  {
    var t := log[i].term;
    t in logs && i < |logs[t]| && log[..i + 1] == logs[t][..i + 1]
  }

  /** Every prefix of `log` is the prefix its last term's leader built. */
  ghost predicate Sourced(logs: map<int, seq<Entry>>, log: seq<Entry>) {
    forall i | 0 <= i < |log| :: SourcedAt(logs, log, i)
  }

  ghost predicate TermsUpTo(log: seq<Entry>, bound: int) {
    forall i | 0 <= i < |log| :: 0 <= log[i].term <= bound
  }

  /** The log a request speaks for: the prefix its prev fields name, then its
      entries. */
  ghost function Claimed(logs: map<int, seq<Entry>>, req: AppendRequest): seq<Entry>
    requires req.prevLogIndex > 0 ==> req.prevLogTerm in logs && req.prevLogIndex <= |logs[req.prevLogTerm]|
  {
    (if req.prevLogIndex <= 0 then [] else logs[req.prevLogTerm][..req.prevLogIndex]) + req.entries
  }

  ghost predicate RequestOk(logs: map<int, seq<Entry>>, req: AppendRequest) {
    && req.prevLogIndex >= 0
    && TermsUpTo(req.entries, req.term)
    && (req.prevLogIndex > 0 && req.prevLogTerm != -1 ==>
          && req.prevLogTerm in logs && req.prevLogIndex <= |logs[req.prevLogTerm]|
          && logs[req.prevLogTerm][req.prevLogIndex - 1].term == req.prevLogTerm)
    && (req.prevLogIndex == 0 || req.prevLogTerm != -1 ==> Sourced(logs, Claimed(logs, req)))
  }

  // ---- one site ----

  ghost predicate LocalOk(members: set<NodeId>, n: NodeId, s: Site) {
    && s.node.id == n && PeersOf(members, n, s.node.peers)
    && s.node.base == 0 && s.node.baseTerm == 0 && s.disk.base == 0 && s.disk.baseTerm == 0
    && 0 <= s.disk.term <= s.node.term
    && (!s.node.dirty ==> s.disk == ToDisk(s.node))
    && (s.node.role != Follower ==>
          s.node.votedFor == Some(n) && (s.disk.term < s.node.term || s.disk.votedFor == Some(n)))
    && (s.node.role == Leader ==> s.campaign.Idle? && s.disk.term == s.node.term)
    && TermsUpTo(s.node.log, s.node.term) && TermsUpTo(s.disk.log, s.disk.term)
  }

  ghost predicate Won(h: History, t: int, n: NodeId) {
    t in h.wins && exists w :: w in h.wins[t] && w.leader == n
  }

  ghost predicate CampaignOk(members: set<NodeId>, n: NodeId, s: Site, net: set<Message>, h: History) {
    && (!s.campaign.Idle? ==>
          && s.campaign.req.candidate == n
          && s.campaign.req.lastLogTerm < s.campaign.req.term <= s.node.term
          && forall t :: Won(h, t, n) ==> t < s.campaign.req.term)
    && (s.campaign.Soliciting? ==>
          && s.campaign.req.term <= s.disk.term
          && n !in s.campaign.tally && s.campaign.tally <= members
          && forall v :: v in s.campaign.tally ==> Granted(net, v, s.campaign.req.term, n))
  }

  ghost predicate LastWinner(h: History, t: int, n: NodeId) {
    t in h.wins && |h.wins[t]| > 0 && h.wins[t][|h.wins[t]| - 1].leader == n
  }

  ghost predicate WinsOk(n: NodeId, s: Site, h: History) {
    && (forall t :: Won(h, t, n) ==> t <= s.disk.term)
    && (s.node.role == Leader ==> LastWinner(h, s.node.term, n))
  }

  ghost predicate LogsOk(s: Site, h: History) {
    && Sourced(h.logs, s.node.log) && Sourced(h.logs, s.disk.log)
    && (s.node.role == Leader && s.node.term in h.logs ==> h.logs[s.node.term] == s.node.log)
  }

  ghost predicate SoleWinner(h: History, t: int, n: NodeId) {
    t in h.wins && |h.wins[t]| == 1 && h.wins[t][0].leader == n
  }

  ghost predicate KeepsClaim(votedFor: Option<NodeId>, log: seq<Entry>, n: NodeId, t: int) {
    votedFor == Some(n) || (|log| > 0 && log[|log| - 1].term == t)
  }

  /** While a node is the only winner of a term it has created entries in, it
      helps nobody else win that term: its own vote or its log stands in the
      way, in memory and on disk. */
  ghost predicate OwnerOk(n: NodeId, s: Site, net: set<Message>, h: History) {
    forall t :: t in h.logs && SoleWinner(h, t, n) ==>
      && (forall c :: !Cast(n, s, net, t, c))
      && (s.node.term == t ==> KeepsClaim(s.node.votedFor, s.node.log, n, t))
      && (s.disk.term == t ==> KeepsClaim(s.disk.votedFor, s.disk.log, n, t))
  }

  ghost predicate SiteOk(members: set<NodeId>, n: NodeId, s: Site, net: set<Message>, h: History) {
    && LocalOk(members, n, s)
    && VotesOk(n, s, net)
    && CampaignOk(members, n, s, net, h)
    && WinsOk(n, s, h)
    && LogsOk(s, h)
    && OwnerOk(n, s, net, h)
  }

  // ---- messages and history ----

  ghost predicate MsgOk(members: set<NodeId>, m: Message, h: History) {
    match m
    case Solicit(req) => req.lastLogTerm < req.term
    case VoteReply(v, c, t, resp) => v in members && v != c && (resp.granted ==> resp.term == t)
    case Append(to, req) => to != req.leader && Won(h, req.term, req.leader) && RequestOk(h.logs, req)
    case AppendReply(_, _, _) => true
  }

  ghost predicate WinOk(members: set<NodeId>, net: set<Message>, t: int, w: Win) {
    && w.leader in w.quorum && w.quorum <= members
    && 2 * |w.quorum| > |members|
    && forall v :: v in w.quorum && v != w.leader ==> Granted(net, v, t, w.leader)
  }

  ghost predicate WinListOk(members: set<NodeId>, net: set<Message>, t: int, ws: seq<Win>) {
    && 1 <= |ws| <= 2
    && (forall i | 0 <= i < |ws| :: WinOk(members, net, t, ws[i]))
    && (|ws| == 2 ==> ws[0].leader != ws[1].leader && Granted(net, ws[0].leader, t, ws[1].leader))
  }

  ghost predicate TermLogOk(logs: map<int, seq<Entry>>, t: int)
    requires t in logs
  {
    && |logs[t]| > 0 && logs[t][|logs[t]| - 1].term == t
    && TermsUpTo(logs[t], t) && Sourced(logs, logs[t])
  }

  ghost predicate HistoryOk(members: set<NodeId>, net: set<Message>, h: History) {
    && (forall t | t in h.logs :: t in h.wins && TermLogOk(h.logs, t))
    && (forall t | t in h.wins :: WinListOk(members, net, t, h.wins[t]))
  }

  ghost predicate SitesOk(c: Cluster, h: History) {
    forall n | n in c.sites :: SiteOk(c.sites.Keys, n, c.sites[n], c.net, h)
  }

  ghost predicate NetOk(c: Cluster, h: History) {
    forall m | m in c.net :: MsgOk(c.sites.Keys, m, h)
  }

  ghost predicate Inv(c: Cluster, h: History) {
    SitesOk(c, h) && NetOk(c, h) && HistoryOk(c.sites.Keys, c.net, h)
  }
}
