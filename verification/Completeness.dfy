/** Leader completeness and state-machine safety, over every orderly run: a clean
    run without crashes, in which every request is delivered while its sender
    leads and waits for it, and no machine starts to lead with a match index
    beyond its log. */
module Completeness {
  import opened Basics
  import opened Commands
  import opened RaftNode
  import opened MergeExactness
  import opened Commit
  import opened LeaderLogic
  import opened Cluster
  import opened ClusterInvariant
  import opened ClusterSteps
  import opened ClusterSafety
  import opened ClusterCommit
  import opened Chronicle
  import R = Replication

  // ---- orderly runs ----

  /** Delivered while the sender still leads and still waits for the answer. */
  ghost predicate Prompt(c: Cluster, p: NodeId, req: AppendRequest) {
    && Leading(c, req.leader, req.term)
    && p in c.sites[req.leader].calls && c.sites[req.leader].calls[p] == req
  }

  ghost predicate MatchesWithin(s: Site) {
    forall p | p in s.node.peers :: At(ReplOf(s).matchIndex, p) <= LastIndex(s.node)
  }

  /** A first leadership begins so. */
  lemma FreshMatchesWithin(s: Site)
    requires s.repl == None
    ensures MatchesWithin(s)
  {
    FreshMarks(s.node);
  }

  /** So does one with warranted match indexes, unless one of them is about a peer
      that has left for a later term. */
  lemma WarrantedMatchesWithin(c: Cluster, n: NodeId, t: int, start: int)
    requires n in c.sites && PeersOf(c.sites.Keys, n, c.sites[n].node.peers)
    requires R.AllWarranted(Lead(c, n, t, start))
    requires forall p | p in c.sites && p != n :: At(ReplOf(c.sites[n]).matchIndex, p) == 0 || c.sites[p].node.term <= t
    ensures MatchesWithin(c.sites[n])
  {
    hide ReplOf, At;
    var l := Lead(c, n, t, start);
    forall p | p in c.sites[n].node.peers ensures At(ReplOf(c.sites[n]).matchIndex, p) <= LastIndex(c.sites[n].node) {
      assert p in l.peers && R.Warranted(l, p);
    }
  }

  ghost predicate Orderly(c: Cluster, step: Step) {
    && !step.Crash?
    && (step.ReceiveAppend? ==> Prompt(c, step.n, step.areq))
    && (step.FinishElection? && Winning(c, step.n) ==> MatchesWithin(c.sites[step.n]))
  }

  ghost predicate IsOrderlyRun(c: Cluster, steps: seq<Step>)
    decreases |steps|
  {
    steps == []
    || (&& Enabled(c, steps[0]) && Clean(c, steps[0]) && Orderly(c, steps[0])
        && IsOrderlyRun(Next(c, steps[0]), steps[1..]))
  }

  // ---- vouching for an entry ----

  /** Index `k` of the log of term `t` holds an entry of that term. */
  ghost predicate Mark(h: History, t: int, k: int) {
    t in h.logs && 0 < k <= |h.logs[t]| && h.logs[t][k - 1].term == t
  }

  ghost function Upto(h: History, t: int, k: int): seq<Entry>
    requires Mark(h, t, k)
  {
    h.logs[t][..k]
  }

  ghost predicate AckedUpTo(c: Cluster, h: History, v: NodeId, t: int, k: int)
    requires v in c.sites
  {
    exists req :: HasAcked(c, v, req) && req.term == t && LastWinner(h, t, req.leader) && R.EndOf(req) >= k
  }

  /** `v` created the entries of term `t`, or has accepted them up to index `k`. */
  ghost predicate Vouches(c: Cluster, h: History, v: NodeId, t: int, k: int)
    requires v in c.sites
  {
    LastWinner(h, t, v) || AckedUpTo(c, h, v, t, k)
  }

  ghost predicate LacksAt(h: History, g: Chronicle, u: int, i: int, e: seq<Entry>) {
    && u in h.wins && 0 <= i < |h.wins[u]|
    && (u, h.wins[u][i].leader) in g.asks && !(e <= g.asks[(u, h.wins[u][i].leader)])
  }

  /** Some winner of a term above `t`, up to `bound`, was crowned without `e`. */
  ghost predicate Broken(h: History, g: Chronicle, t: int, e: seq<Entry>, bound: int) {
    exists u, i :: LacksAt(h, g, u, i, e) && t < u <= bound
  }

  /** The same, among the winners before the `i`-th of term `u`. */
  ghost predicate BrokenBefore(h: History, g: Chronicle, t: int, e: seq<Entry>, u: int, i: int) {
    exists w, j :: LacksAt(h, g, w, j, e) && t < w && (w < u || (w == u && j < i))
  }

  /** What a machine that vouches for `e` shows: its log, the logs it campaigned
      with later, and those it voted with later hold `e`, or a winner broke the
      chain before. */
  ghost predicate Shows(h: History, g: Chronicle, v: NodeId, s: NodeState, t: int, e: seq<Entry>) {
    && s.term >= t
    && (e <= s.log || Broken(h, g, t, e, s.term))
    && (forall u | t < u && (u, v) in g.asks :: e <= g.asks[(u, v)] || Broken(h, g, t, e, u - 1))
    && (forall u | t < u && (v, u) in g.ballots :: e <= g.ballots[(v, u)] || Broken(h, g, t, e, u))
  }

  ghost predicate Watched(c: Cluster, h: History, g: Chronicle, v: NodeId, t: int, k: int)
    requires v in c.sites && Mark(h, t, k)
  {
    Vouches(c, h, v, t, k) ==> Shows(h, g, v, c.sites[v].node, t, Upto(h, t, k))
  }

  /** The log that speaks for `v` in an election won by `n` in term `u`. */
  ghost predicate SightHas(g: Chronicle, u: int, n: NodeId, v: NodeId, e: seq<Entry>) {
    if v == n then (u, n) in g.asks && e <= g.asks[(u, n)] else (v, u) in g.ballots && e <= g.ballots[(v, u)]
  }

  ghost predicate WinWatched(c: Cluster, h: History, g: Chronicle, u: int, i: int, v: NodeId, t: int, k: int)
    requires v in c.sites && Mark(h, t, k) && u in h.wins && 0 <= i < |h.wins[u]|
  {
    t < u && v in h.wins[u][i].quorum && Vouches(c, h, v, t, k) ==>
      SightHas(g, u, h.wins[u][i].leader, v, Upto(h, t, k)) || BrokenBefore(h, g, t, Upto(h, t, k), u, i)
  }

  ghost predicate AllWatched(c: Cluster, h: History, g: Chronicle) {
    && (forall t, k, v | v in c.sites && Mark(h, t, k) :: Watched(c, h, g, v, t, k))
    && (forall t, k, v, u, i | v in c.sites && Mark(h, t, k) && u in h.wins && 0 <= i < |h.wins[u]| ::
          WinWatched(c, h, g, u, i, v, t, k))
  }

  /** A majority vouches for index `k` of term `t`, on the wire for all to see. */
  ghost predicate SaidUpTo(net: set<Message>, h: History, v: NodeId, t: int, k: int) {
    LastWinner(h, t, v)
    || exists req :: AppendReply(v, req, AppendResponse(t, true)) in net && req.term == t && LastWinner(h, t, req.leader)
                     && R.EndOf(req) >= k
  }

  ghost predicate SaidBy(c: Cluster, h: History, t: int, k: int, q: set<NodeId>) {
    q <= c.sites.Keys && 2 * |q| > |c.sites| && forall v | v in q :: SaidUpTo(c.net, h, v, t, k)
  }

  ghost predicate Settled(c: Cluster, h: History, t: int, k: int) {
    Mark(h, t, k) && exists q :: SaidBy(c, h, t, k, q)
  }

  // ---- once a majority vouches, the chain is never broken ----

  /** The terms of a log do not fall, so a log that holds an entry of term `t` ends
      in term `t` or later. */
  lemma EndAtLeast(h: History, b: seq<Entry>, t: int, e: seq<Entry>)
    requires (forall w | w in h.logs :: TermLogOk(h.logs, w)) && Sourced(h.logs, b)
    requires e != [] && e[|e| - 1].term == t && e <= b
    ensures b != [] && EndTerm(b) >= t >= 0
  {
    var last := |b| - 1;
    assert SourcedAt(h.logs, b, last) && SourcedAt(h.logs, b, |e| - 1);
    var w := b[last].term;
    assert TermLogOk(h.logs, w) && TermLogOk(h.logs, t);
    assert b[|e| - 1] == b[..last + 1][|e| - 1] == h.logs[w][..last + 1][|e| - 1] == h.logs[w][|e| - 1];
  }

  /** A log that ends in term `w` contains what `w`'s last winner was crowned with. */
  lemma CrownWithin(h: History, g: Chronicle, a: seq<Entry>, w: int)
    requires PagesSourced(h, g) && WinsNoted(h, g)
    requires a != [] && a[|a| - 1].term == w && SourcedAt(h.logs, a, |a| - 1)
    ensures g.asks[(w, LastWin(h, w))] <= a
  {
    var crown := g.asks[(w, LastWin(h, w))];
    assert a == a[..|a|] == h.logs[w][..|a|];
    assert TermsUpTo(crown, w - 1);
    assert |crown| < |a|;
  }

  /** A log that is fresher than one holding `e` holds `e`, unless a winner whose
      entries it ends with was crowned without. */
  lemma FresherHolds(h: History, g: Chronicle, a: seq<Entry>, b: seq<Entry>, t: int, e: seq<Entry>, u: int)
    requires PagesSourced(h, g) && WinsNoted(h, g) && (forall w | w in h.logs :: TermLogOk(h.logs, w))
    requires Sourced(h.logs, a) && Sourced(h.logs, b) && TermsUpTo(a, u - 1) && Fresher(a, b)
    requires e != [] && e[|e| - 1].term == t && e <= b
    ensures e <= a || exists w :: w in h.logs && t < w < u && LacksAt(h, g, w, |h.wins[w]| - 1, e)
  {
    EndAtLeast(h, b, t, e);
    if EndTerm(a) == EndTerm(b) {
      SameLastTerm(h.logs, b, a);
    } else {
      var w := EndTerm(a);
      assert SourcedAt(h.logs, a, |a| - 1);
      CrownWithin(h, g, a, w);
      assert e <= g.asks[(w, LastWin(h, w))] ==> e <= a;
      assert w in h.logs && t < w < u && (LacksAt(h, g, w, |h.wins[w]| - 1, e) || e <= a);
    }
  }

  lemma SaidMeansVouches(c: Cluster, h: History, v: NodeId, t: int, k: int)
    requires v in c.sites && SaidUpTo(c.net, h, v, t, k)
    ensures Vouches(c, h, v, t, k)
  {
    if !LastWinner(h, t, v) {
      var req :| AppendReply(v, req, AppendResponse(t, true)) in c.net && req.term == t && LastWinner(h, t, req.leader)
                 && R.EndOf(req) >= k;
      assert HasAcked(c, v, req);
    }
  }

  lemma WinnersQuorum(c: Cluster, h: History, g: Chronicle, u: int, i: int, v: NodeId)
    requires Inv(c, h) && Noted(c, h, g) && u in h.wins && 0 <= i < |h.wins[u]| && v in h.wins[u][i].quorum
    ensures var n := h.wins[u][i].leader;
            && v in c.sites && (u, n) in g.asks
            && (v != n ==> (v, u) in g.ballots && Fresher(g.asks[(u, n)], g.ballots[(v, u)]))
  {
    hide Fresher, Describes, PagesSourced, SolicitsNoted, SitesOk, NetOk;
    assert WinListOk(c.sites.Keys, c.net, u, h.wins[u]);
    assert WinOk(c.sites.Keys, c.net, u, h.wins[u][i]);
    var n := h.wins[u][i].leader;
    if v != n {
      assert SiteNoted(v, c.sites[v], c.net, g);
      assert Granted(c.net, v, u, n) && Cast(v, c.sites[v], c.net, u, n);
    }
  }

  lemma WinnersMeet(c: Cluster, h: History, u: int, i: int, q: set<NodeId>) returns (v: NodeId)
    requires Inv(c, h) && u in h.wins && 0 <= i < |h.wins[u]| && q <= c.sites.Keys && 2 * |q| > |c.sites|
    ensures v in q && v in h.wins[u][i].quorum
  {
    hide SitesOk, NetOk;
    assert WinListOk(c.sites.Keys, c.net, u, h.wins[u]);
    assert WinOk(c.sites.Keys, c.net, u, h.wins[u][i]);
    assert |c.sites.Keys| == |c.sites|;
    v := QuorumsMeet(c.sites.Keys, q, h.wins[u][i].quorum);
  }

  lemma WinIndex(h: History, g: Chronicle, w: int, j: int, e: seq<Entry>)
    requires LacksAt(h, g, w, j, e)
    ensures w in h.wins && 0 <= j < |h.wins[w]|
  {}

  lemma HasIsNotLacking(h: History, g: Chronicle, u: int, i: int, e: seq<Entry>)
    requires u in h.wins && 0 <= i < |h.wins[u]| && (u, h.wins[u][i].leader) in g.asks
    requires e <= g.asks[(u, h.wins[u][i].leader)]
    ensures !LacksAt(h, g, u, i, e)
  {}

  /** A voter that held `e` elects only winners that hold it, as long as nobody
      broke the chain before. */
  lemma BallotCarries(c: Cluster, h: History, g: Chronicle, u: int, i: int, v: NodeId, t: int, k: int)
    requires Inv(c, h) && Noted(c, h, g) && Mark(h, t, k) && u in h.wins && 0 <= i < |h.wins[u]|
    requires v in h.wins[u][i].quorum && v != h.wins[u][i].leader
    requires (v, u) in g.ballots && Upto(h, t, k) <= g.ballots[(v, u)]
    requires forall w, j | LacksAt(h, g, w, j, Upto(h, t, k)) && t < w :: w >= u
    ensures (u, h.wins[u][i].leader) in g.asks && Upto(h, t, k) <= g.asks[(u, h.wins[u][i].leader)]
  {
    hide Fresher, Sourced, TermsUpTo, LacksAt, SitesOk, NetOk, SiteNoted, SolicitsNoted;
    var n, e := h.wins[u][i].leader, Upto(h, t, k);
    WinnersQuorum(c, h, g, u, i, v);
    FresherHolds(h, g, g.asks[(u, n)], g.ballots[(v, u)], t, e, u);
  }

  /** Leader completeness, at the moment of victory: once a majority vouches for
      index `k` of term `t`, every winner of a later term is crowned with it. */
  lemma {:induction false} EveryWinnerHolds(c: Cluster, h: History, g: Chronicle, t: int, k: int, u: int, i: int)
    requires Inv(c, h) && Noted(c, h, g) && AllWatched(c, h, g) && Settled(c, h, t, k)
    requires u in h.wins && 0 <= i < |h.wins[u]| && t < u
    ensures !LacksAt(h, g, u, i, Upto(h, t, k))
    decreases u - t, i
  {
    hide Inv, Noted, Watched, SaidUpTo, Vouches, LacksAt, Mark;
    var e, n := Upto(h, t, k), h.wins[u][i].leader;
    forall w, j | LacksAt(h, g, w, j, e) && t < w ensures !(w < u || (w == u && j < i)) {
      if w < u || (w == u && j < i) {
        WinIndex(h, g, w, j, e);
        EveryWinnerHolds(c, h, g, t, k, w, j);
      }
    }
    var q :| SaidBy(c, h, t, k, q);
    var v := WinnersMeet(c, h, u, i, q);
    SaidMeansVouches(c, h, v, t, k);
    assert WinWatched(c, h, g, u, i, v, t, k);
    assert SightHas(g, u, n, v, e);
    WinnersQuorum(c, h, g, u, i, v);
    if v == n {
      HasIsNotLacking(h, g, u, i, e);
    } else {
      BallotCarries(c, h, g, u, i, v, t, k);
      HasIsNotLacking(h, g, u, i, e);
    }
  }
}
