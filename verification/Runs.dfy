/** Building concrete runs of a cluster of three machines. Each lemma takes a
    reachable state to a later one, so that a run can be told in a few lines.
    All runs here are clean and smooth: no machine crashes and no save fails. */
module Runs {
  import opened Basics
  import opened Commands
  import opened RaftNode
  import opened LeaderLogic
  import opened Cluster
  import ClusterCommit
  import ClusterSafety
  import Completeness
  import Replication

  const PA := ["b", "c"]
  const PB := ["a", "c"]
  const PC := ["a", "b"]

  /** Three machines, and messages known to have been sent. */
  datatype Trio = Trio(a: Site, b: Site, c: Site, mail: set<Message>)

  predicate Named(n: NodeId) { n == "a" || n == "b" || n == "c" }

  function Pick(t: Trio, n: NodeId): Site
    requires Named(n)
  {
    if n == "a" then t.a else if n == "b" then t.b else t.c
  }

  function With(t: Trio, n: NodeId, s: Site, sent: set<Message>): Trio
    requires Named(n)
  {
    (if n == "a" then t.(a := s) else if n == "b" then t.(b := s) else t.(c := s)).(mail := t.mail + sent)
  }

  function SitesOf(t: Trio): map<NodeId, Site> { map["a" := t.a, "b" := t.b, "c" := t.c] }

  function Fresh(id: NodeId, peers: seq<NodeId>): Site {
    Site(Reload(id, peers, BLANK_DISK), BLANK_DISK, Idle, {}, None, map[])
  }

  function Start(): Cluster {
    Cluster(map["a" := Fresh("a", PA), "b" := Fresh("b", PB), "c" := Fresh("c", PC)], {})
  }

  lemma NodeOfReload(id: NodeId, peers: seq<NodeId>)
    ensures Reload(id, peers, BLANK_DISK).peers == peers
  {}

  lemma StartIsInitial()
    ensures Initial(Start())
  {
    hide Reload;
    assert Start().sites.Keys == {"a", "b", "c"};
    assert forall p :: p in {"a", "b", "c"} && p != "a" <==> p in PA;
    assert forall p :: p in {"a", "b", "c"} && p != "b" <==> p in PB;
    assert forall p :: p in {"a", "b", "c"} && p != "c" <==> p in PC;
    NodeOfReload("a", PA);
    NodeOfReload("b", PB);
    NodeOfReload("c", PC);
  }

  // ---- growing a run ----

  lemma {:induction false} Extend(c: Cluster, steps: seq<Step>, step: Step)
    requires IsRun(c, steps) && Enabled(After(c, steps), step)
    ensures IsRun(c, steps + [step]) && After(c, steps + [step]) == Next(After(c, steps), step)
    decreases |steps|
  {
    hide Enabled, Next;
    if steps == [] {
      assert [step][1..] == [];
    } else {
      assert (steps + [step])[1..] == steps[1..] + [step];
      Extend(Next(c, steps[0]), steps[1..], step);
    }
  }

  lemma {:induction false} ExtendClean(c: Cluster, steps: seq<Step>, step: Step)
    requires IsCleanRun(c, steps)
    ensures IsRun(c, steps)
    ensures Enabled(After(c, steps), step) && Clean(After(c, steps), step) ==> IsCleanRun(c, steps + [step])
    decreases |steps|
  {
    hide Enabled, Next, Clean;
    if steps == [] {
      assert [step][1..] == [];
    } else {
      assert (steps + [step])[1..] == steps[1..] + [step];
      ExtendClean(Next(c, steps[0]), steps[1..], step);
    }
  }

  predicate Smooth(step: Step) {
    && !step.Crash?
    && (step.SaveCampaign? || step.AnswerVote? || step.Save? || step.AnswerAppend? ==> step.out == Saved)
  }

  ghost predicate SmoothRun(steps: seq<Step>) { forall i | 0 <= i < |steps| :: Smooth(steps[i]) }

  ghost predicate WarrantedWin(c: Cluster, n: NodeId)
    requires ClusterSafety.Winning(c, n)
  {
    var s := DoFinishElection(c.sites[n]).0;
    Replication.AllWarranted(ClusterCommit.Lead(c.(sites := c.sites[n := s]), n, s.node.term, s.node.commitIndex))
  }

  /** What is asked of a run beyond being clean and smooth: nothing; that every
      request is delivered while its sender leads and waits for it, and every
      winner has warranted match indexes; or also that no append is handled while
      an earlier one of that machine waits for its save. */
  datatype Manner = Anyhow | Promptly | Unhurriedly

  ghost predicate Fits(m: Manner, c: Cluster, step: Step) {
    && (!m.Anyhow? && step.ReceiveAppend? ==> Completeness.Prompt(c, step.n, step.areq))
    && (!m.Anyhow? && step.FinishElection? && ClusterSafety.Winning(c, step.n) ==> WarrantedWin(c, step.n))
    && (m.Unhurriedly? && step.ReceiveAppend? ==> step.n in c.sites && NoneWaiting(c.sites[step.n]))
  }

  ghost predicate IsRunOf(m: Manner, c: Cluster, steps: seq<Step>)
    decreases |steps|
  {
    steps == [] || (Enabled(c, steps[0]) && Fits(m, c, steps[0]) && IsRunOf(m, Next(c, steps[0]), steps[1..]))
  }

  lemma {:induction false} ExtendFits(m: Manner, c: Cluster, steps: seq<Step>, step: Step)
    requires IsRunOf(m, c, steps)
    ensures IsRun(c, steps)
    ensures Enabled(After(c, steps), step) && Fits(m, After(c, steps), step) ==> IsRunOf(m, c, steps + [step])
    decreases |steps|
  {
    hide Enabled, Next, Fits;
    if steps == [] {
      assert [step][1..] == [];
    } else {
      assert (steps + [step])[1..] == steps[1..] + [step];
      ExtendFits(m, Next(c, steps[0]), steps[1..], step);
    }
  }

  lemma FitsWhateverMail(m: Manner, sites: map<NodeId, Site>, net: set<Message>, net1: set<Message>, step: Step)
    requires Fits(m, Cluster(sites, net), step)
    ensures Fits(m, Cluster(sites, net1), step)
  {
    hide Replication.AllWarranted, DoFinishElection, NoneWaiting;
    if step.FinishElection? && ClusterSafety.Winning(Cluster(sites, net), step.n) {
      var s := DoFinishElection(sites[step.n]).0;
      var sites1 := sites[step.n := s];
      assert ClusterCommit.Lead(Cluster(sites1, net), step.n, s.node.term, s.node.commitIndex)
          == ClusterCommit.Lead(Cluster(sites1, net1), step.n, s.node.term, s.node.commitIndex);
    }
  }

  ghost predicate Arrives(m: Manner, steps: seq<Step>, t: Trio) {
    && SmoothRun(steps) && IsRunOf(m, Start(), steps)
    && IsCleanRun(Start(), steps) && IsRun(Start(), steps)
    && After(Start(), steps).sites == SitesOf(t) && t.mail <= After(Start(), steps).net
  }

  /** Some clean and smooth run in this manner, from the start, ends in these sites, with at least this mail. */
  ghost predicate Reachable(m: Manner, t: Trio) { exists steps :: Arrives(m, steps, t) }

  lemma FromTheStart(m: Manner)
    ensures Reachable(m, Trio(Fresh("a", PA), Fresh("b", PB), Fresh("c", PC), {}))
  {
    hide Fresh;
    assert Arrives(m, [], Trio(Fresh("a", PA), Fresh("b", PB), Fresh("c", PC), {}));
  }

  /** What a step at machine `n` comes to. */
  ghost predicate Allowed(m: Manner, t: Trio, step: Step) {
    && Named(step.n) && Smooth(step) && Fits(m, Cluster(SitesOf(t), t.mail), step)
    && forall net | t.mail <= net ::
         Enabled(Cluster(SitesOf(t), net), step) && Clean(Cluster(SitesOf(t), net), step)
  }

  ghost function Outcome(m: Manner, t: Trio, step: Step): Trio
    requires Allowed(m, t, step)
  {
    assert t.mail <= t.mail;
    var (s, sent) := SiteStep(Cluster(SitesOf(t), t.mail), step);
    With(t, step.n, s, sent)
  }

  lemma StepIgnoresMail(sites: map<NodeId, Site>, net: set<Message>, net1: set<Message>, step: Step)
    requires Enabled(Cluster(sites, net), step) && Enabled(Cluster(sites, net1), step)
    ensures SiteStep(Cluster(sites, net), step) == SiteStep(Cluster(sites, net1), step)
  {}

  lemma OneMore(m: Manner, steps: seq<Step>, t: Trio, step: Step)
    requires Arrives(m, steps, t) && Allowed(m, t, step)
    ensures Arrives(m, steps + [step], Outcome(m, t, step))
  {
    hide Enabled, Clean, SiteStep, IsRun, IsCleanRun, IsRunOf, Fits, After, Smooth;
    var k := After(Start(), steps);
    assert k == Cluster(SitesOf(t), k.net) && t.mail <= t.mail;
    Extend(Start(), steps, step);
    ExtendClean(Start(), steps, step);
    FitsWhateverMail(m, SitesOf(t), t.mail, k.net, step);
    ExtendFits(m, Start(), steps, step);
    StepIgnoresMail(SitesOf(t), k.net, t.mail, step);
    assert Next(k, step).sites == SitesOf(Outcome(m, t, step));
  }

  lemma Go(m: Manner, t: Trio, step: Step)
    requires Reachable(m, t) && Allowed(m, t, step)
    ensures Reachable(m, Outcome(m, t, step))
  {
    hide Arrives, Allowed, Outcome;
    var steps :| Arrives(m, steps, t);
    OneMore(m, steps, t, step);
  }

  // ---- elections ----

  function Ask(s: Site): VoteRequest { SolicitRequest(BecomeCandidate(s.node)) }

  function Ballot(v: NodeId, ask: VoteRequest): Message {
    VoteReply(v, ask.candidate, ask.term, VoteResponse(ask.term, true))
  }

  /** `s` after it has won an election on saved campaign. */
  function Crowned(s: Site): Site {
    var cand := BecomeCandidate(s.node);
    s.(node := BecomeLeader(cand).(dirty := false), disk := ToDisk(cand), campaign := Idle)
  }

  /** `w` after it has granted and saved a vote. */
  function Voted(w: Site, ask: VoteRequest): Site {
    var d := DecideVote(w.node, ask).0;
    w.(node := d.(dirty := false), disk := ToDisk(d))
  }

  /** `s` once its campaign is saved and the votes of `tally` are in. */
  function Running(s: Site, tally: set<NodeId>): Site {
    var cand := BecomeCandidate(s.node);
    s.(node := cand.(dirty := false), disk := ToDisk(cand), campaign := Soliciting(Ask(s), tally))
  }

  lemma Campaigns(m: Manner, t: Trio, n: NodeId)
    requires Named(n) && Reachable(m, t)
    requires Pick(t, n).node.role != Leader && Pick(t, n).campaign == Idle
    ensures Reachable(m, With(t, n, Running(Pick(t, n), {}), {Solicit(Ask(Pick(t, n)))}))
  {
    hide Reachable, SolicitRequest, WarrantedWin, NoneWaiting;
    var s := Pick(t, n);
    Go(m, t, Timeout(n));
    var t1 := Outcome(m, t, Timeout(n));
    assert t1.mail == t.mail;
    Go(m, t1, SaveCampaign(n, Saved));
    assert Outcome(m, t1, SaveCampaign(n, Saved)) == With(t, n, Running(s, {}), {Solicit(Ask(s))});
  }

  lemma GrantShape(s: NodeState, ask: VoteRequest)
    requires DecideVote(s, ask).1.granted
    ensures var (d, resp) := DecideVote(s, ask);
            d.dirty && d.id == s.id && d.term == ask.term && resp == VoteResponse(ask.term, true)
  {}

  lemma PromisesVote(m: Manner, t: Trio, v: NodeId, ask: VoteRequest)
    requires Named(v) && Reachable(m, t) && Solicit(ask) in t.mail && ask.candidate != v
    requires Pick(t, v).pending == {} && DecideVote(Pick(t, v).node, ask).1.granted
    ensures var (w, d) := (Pick(t, v), DecideVote(Pick(t, v).node, ask).0);
            Reachable(m, With(t, v, w.(node := d, pending := {PendingVote(ask.candidate, ask.term)}), {}))
  {
    hide Reachable, DecideVote, WarrantedWin, NoneWaiting;
    Go(m, t, ReceiveVote(v, ask));
    assert {} + {PendingVote(ask.candidate, ask.term)} == {PendingVote(ask.candidate, ask.term)};
  }

  lemma Votes(m: Manner, t: Trio, v: NodeId, ask: VoteRequest)
    requires Named(v) && Reachable(m, t) && Solicit(ask) in t.mail && ask.candidate != v
    requires Pick(t, v).node.id == v && Pick(t, v).pending == {} && DecideVote(Pick(t, v).node, ask).1.granted
    ensures Reachable(m, With(t, v, Voted(Pick(t, v), ask), {Ballot(v, ask)}))
  {
    hide Reachable, DecideVote, WarrantedWin, NoneWaiting;
    var w := Pick(t, v);
    var d := DecideVote(w.node, ask).0;
    GrantShape(w.node, ask);
    PromisesVote(m, t, v, ask);
    var t1 := With(t, v, w.(node := d, pending := {PendingVote(ask.candidate, ask.term)}), {});
    Go(m, t1, AnswerVote(v, ask.candidate, ask.term, Saved));
    assert {PendingVote(ask.candidate, ask.term)} - {PendingVote(ask.candidate, ask.term)} == {};
    assert Outcome(m, t1, AnswerVote(v, ask.candidate, ask.term, Saved)) == With(t, v, Voted(w, ask), {Ballot(v, ask)});
  }

  lemma LessMail(m: Manner, t: Trio, less: Trio)
    requires Reachable(m, t) && less.a == t.a && less.b == t.b && less.c == t.c && less.mail <= t.mail
    ensures Reachable(m, less)
  {
    hide IsRun, IsCleanRun, After;
    var steps :| Arrives(m, steps, t);
    assert Arrives(m, steps, less);
  }

  /** A request that comes to nothing, except that it may bring a newer term. */
  lemma Refuses(m: Manner, t: Trio, v: NodeId, ask: VoteRequest)
    requires Named(v) && Reachable(m, t) && Solicit(ask) in t.mail && ask.candidate != v
    requires !DecideVote(Pick(t, v).node, ask).1.granted
    ensures Reachable(m, With(t, v, Pick(t, v).(node := DecideVote(Pick(t, v).node, ask).0), {}))
  {
    hide Reachable, DecideVote;
    Go(m, t, ReceiveVote(v, ask));
    var w := Pick(t, v);
    LessMail(m, Outcome(m, t, ReceiveVote(v, ask)), With(t, v, w.(node := DecideVote(w.node, ask).0), {}));
  }

  /** `s` after a campaign nobody voted for. */
  function Beaten(s: Site): Site {
    var cand := BecomeCandidate(s.node);
    s.(node := BecomeFollower(cand, cand.term, None), disk := ToDisk(cand), campaign := Idle)
  }

  lemma Loses(m: Manner, t: Trio, n: NodeId)
    requires Named(n) && Reachable(m, t) && |Pick(t, n).node.peers| == 2 && Pick(t, n).node.id == n
    requires Pick(t, n).node.role != Leader && Pick(t, n).campaign == Idle
    ensures Reachable(m, With(t, n, Beaten(Pick(t, n)), {}))
  {
    hide Reachable, LastIndex, LastTerm, ToDisk, WarrantedWin, NoneWaiting;
    var s := Pick(t, n);
    Campaigns(m, t, n);
    var t1 := With(t, n, Running(s, {}), {Solicit(Ask(s))});
    Go(m, t1, FinishElection(n));
    LessMail(m, Outcome(m, t1, FinishElection(n)), With(t, n, Beaten(s), {}));
  }

  lemma Tallies(m: Manner, t: Trio, n: NodeId, v: NodeId, s: Site)
    requires Named(n) && Reachable(m, t) && |s.node.peers| == 2 && s.node.id == n
    requires Pick(t, n) == Running(s, {}) && Ballot(v, Ask(s)) in t.mail
    ensures Reachable(m, With(t, n, Running(s, {v}), {}))
  {
    hide Reachable, LastIndex, LastTerm, ToDisk;
    var yes := VoteResponse(Ask(s).term, true);
    Go(m, t, TallyVote(n, v, yes));
    assert {} + {v} == {v};
    assert Outcome(m, t, TallyVote(n, v, yes)) == With(t, n, Running(s, {v}), {});
  }

  /** The match indexes of machine `n` are warranted. */
  ghost predicate Warranted(t: Trio, n: NodeId)
    requires Named(n)
  {
    var s := Pick(t, n).node;
    Replication.AllWarranted(ClusterCommit.Lead(Cluster(SitesOf(t), t.mail), n, s.term, s.commitIndex))
  }

  lemma IsWarranted(t: Trio, n: NodeId)
    requires Named(n)
    requires forall p | Named(p) && p != n ::
               At(ReplOf(Pick(t, n)).matchIndex, p) == 0 || Pick(t, p).node.term > Pick(t, n).node.term
    ensures Warranted(t, n)
  {
    hide ReplOf, At;
  }

  lemma Wins(m: Manner, t: Trio, n: NodeId, v: NodeId, s: Site)
    requires Named(n) && Reachable(m, t) && |s.node.peers| == 2
    requires Pick(t, n) == Running(s, {v}) && (!m.Anyhow? ==> Warranted(With(t, n, Crowned(s), {}), n))
    ensures Reachable(m, With(t, n, Crowned(s), {}))
  {
    hide Reachable, LastIndex, LastTerm, ToDisk, Replication.AllWarranted;
    var t1 := With(t, n, Crowned(s), {});
    assert SitesOf(t)[n := Crowned(s)] == SitesOf(t1) && t1.mail == t.mail;
    Go(m, t, FinishElection(n));
    assert Outcome(m, t, FinishElection(n)) == With(t, n, Crowned(s), {});
  }

  /** A whole election: `n` campaigns, `v` votes for it, and it wins. */
  lemma Elect(m: Manner, t: Trio, n: NodeId, v: NodeId)
    requires Named(n) && Named(v) && n != v && Reachable(m, t)
    requires var s := Pick(t, n);
             s.node.role != Leader && s.campaign == Idle && |s.node.peers| == 2 && s.node.id == n
    requires var w := Pick(t, v);
             w.node.id == v && w.pending == {} && DecideVote(w.node, Ask(Pick(t, n))).1.granted
    requires var s, w := Pick(t, n), Pick(t, v);
             !m.Anyhow? ==>
               Warranted(With(With(t, v, Voted(w, Ask(s)), {Solicit(Ask(s)), Ballot(v, Ask(s))}), n, Crowned(s), {}), n)
    ensures var s, w := Pick(t, n), Pick(t, v);
            Reachable(m, With(With(t, v, Voted(w, Ask(s)), {Solicit(Ask(s)), Ballot(v, Ask(s))}), n, Crowned(s), {}))
  {
    hide Reachable, DecideVote, ToDisk, LastIndex, LastTerm, Voted, Running;
    var s, w := Pick(t, n), Pick(t, v);
    var ask := Ask(s);
    Campaigns(m, t, n);
    var t1 := With(t, n, Running(s, {}), {Solicit(ask)});
    Votes(m, t1, v, ask);
    var t2 := With(t1, v, Voted(w, ask), {Ballot(v, ask)});
    Tallies(m, t2, n, v, s);
    Wins(m, With(t2, n, Running(s, {v}), {}), n, v, s);
    assert t.mail + {Solicit(ask)} + {Ballot(v, ask)} + {} + {} == t.mail + {Solicit(ask), Ballot(v, ask)} + {};
    assert With(With(t2, n, Running(s, {v}), {}), n, Crowned(s), {})
        == With(With(t, v, Voted(w, ask), {Solicit(ask), Ballot(v, ask)}), n, Crowned(s), {});
  }

  // ---- replication ----

  lemma Calls(m: Manner, t: Trio, n: NodeId, p: NodeId)
    requires Named(n) && Named(p) && n != p && Reachable(m, t)
    requires Pick(t, n).node.role == Leader && Pick(t, n).node.base == 0 && !Flying(ReplOf(Pick(t, n)), p)
    ensures Reachable(m, With(t, n, DoReplicate(Pick(t, n), p).0, {Append(p, CallOf(Pick(t, n), p))}))
  {
    hide Reachable, BuildAppend, FreshRepl, At;
    Go(m, t, Replicate(n, p));
  }

  lemma GivesUpOn(m: Manner, t: Trio, n: NodeId, p: NodeId)
    requires Named(n) && Reachable(m, t) && p in Pick(t, n).calls
    ensures Reachable(m, With(t, n, DoCallFailed(Pick(t, n), p).0, {}))
  {
    hide Reachable, BuildAppend, FreshRepl;
    Go(m, t, CallFailed(n, p));
  }

  /** A call the transport loses, as far as the caller can tell. */
  lemma LosesCall(m: Manner, t: Trio, n: NodeId, p: NodeId)
    requires Named(n) && Named(p) && n != p && Reachable(m, t) && Pick(t, n).calls == map[]
    requires Pick(t, n).node.role == Leader && Pick(t, n).node.base == 0 && !Flying(ReplOf(Pick(t, n)), p)
    ensures Reachable(m, With(t, n, Pick(t, n).(repl := Some(Land(ReplOf(Pick(t, n)), p))),
                              {Append(p, CallOf(Pick(t, n), p))}))
  {
    hide Reachable, BuildAppend, FreshRepl, At;
    var s := Pick(t, n);
    Calls(m, t, n, p);
    var t1 := With(t, n, DoReplicate(s, p).0, {Append(p, CallOf(s, p))});
    GivesUpOn(m, t1, n, p);
    var s1 := DoCallFailed(Pick(t1, n), p).0;
    assert s1.calls == map[] && s1.repl.value.inFlight == Land(ReplOf(s), p).inFlight;
    assert With(t1, n, s1, {}) == With(t, n, s.(repl := Some(Land(ReplOf(s), p))), {Append(p, CallOf(s, p))});
  }

  /** `w` after it has handled a request and saved what changed. */
  function Took(w: Site, req: AppendRequest): Site {
    var out := DecideAppend(w.node, req);
    if out.changed then w.(node := out.state.(dirty := false), disk := ToDisk(out.state)) else w.(node := out.state)
  }

  function Answer(w: Site, req: AppendRequest): AppendResponse { DecideAppend(w.node, req).resp }

  lemma ChangedIsDirty(s: NodeState, req: AppendRequest)
    ensures var out := DecideAppend(s, req); out.changed ==> out.state.dirty && out.resp.success && out.state.id == s.id
  {
    hide Merge, Merged, CheckPrevLog;
  }

  /** An accepted change is saved and acknowledged. */
  lemma Acknowledges(m: Manner, t: Trio, p: NodeId, w: Site, req: AppendRequest)
    requires Named(p) && Reachable(m, t) && w.node.id == p && w.pending == {} && DecideAppend(w.node, req).changed
    requires var out := DecideAppend(w.node, req);
             Pick(t, p) == w.(node := out.state, pending := {PendingAppend(req, out.resp.term)})
    ensures Reachable(m, With(t, p, Took(w, req), {AppendReply(p, req, Answer(w, req))}))
  {
    hide Reachable, DecideAppend, ToDisk;
    var out := DecideAppend(w.node, req);
    ChangedIsDirty(w.node, req);
    Go(m, t, AnswerAppend(p, req, out.resp.term, Saved));
    assert {PendingAppend(req, out.resp.term)} - {PendingAppend(req, out.resp.term)} == {};
    assert Outcome(m, t, AnswerAppend(p, req, out.resp.term, Saved))
        == With(t, p, Took(w, req), {AppendReply(p, req, out.resp)});
  }

  /** A request that was sent, however long ago, is handled by machine `p`. */
  lemma Takes(m: Manner, t: Trio, p: NodeId, req: AppendRequest)
    requires Named(p) && Reachable(m, t) && Append(p, req) in t.mail
    requires Pick(t, p).node.id == p && Pick(t, p).pending == {}
    requires !m.Anyhow? ==> Completeness.Prompt(Cluster(SitesOf(t), t.mail), p, req)
    ensures Reachable(m, With(t, p, Took(Pick(t, p), req), {AppendReply(p, req, Answer(Pick(t, p), req))}))
  {
    hide Reachable, DecideAppend, ToDisk;
    var w := Pick(t, p);
    var out := DecideAppend(w.node, req);
    ChangedIsDirty(w.node, req);
    Go(m, t, ReceiveAppend(p, req));
    if out.changed {
      var t1 := Outcome(m, t, ReceiveAppend(p, req));
      assert t1 == With(t, p, w.(node := out.state, pending := {PendingAppend(req, out.resp.term)}), {});
      Acknowledges(m, t1, p, w, req);
      assert t1.mail == t.mail;
    }
  }

  lemma Hears(m: Manner, t: Trio, n: NodeId, p: NodeId, resp: AppendResponse)
    requires Named(n) && Reachable(m, t) && p in Pick(t, n).calls && AppendReply(p, Pick(t, n).calls[p], resp) in t.mail
    ensures Reachable(m, With(t, n, DoReceiveAppendReply(Pick(t, n), p, resp).0, {}))
  {
    hide Reachable, OnAppendReply, FreshRepl;
    Go(m, t, ReceiveAppendReply(n, p, resp));
  }

  /** `s` after a call to `p` that was answered with `resp`. */
  function Called(s: Site, p: NodeId, resp: AppendResponse): Site
    requires s.node.base == 0
  {
    DoReceiveAppendReply(DoReplicate(s, p).0, p, resp).0
  }

  lemma CallNamesSender(s: NodeState, next: int)
    requires next >= s.base + 1
    ensures BuildAppend(s, next).leader == s.id && BuildAppend(s, next).term == s.term
  {}

  /** A whole call: `n` sends what `p` lacks, `p` handles it, `n` hears back. */
  lemma Ships(m: Manner, t: Trio, n: NodeId, p: NodeId)
    requires Named(n) && Named(p) && n != p && Reachable(m, t)
    requires Pick(t, n).node.role == Leader && Pick(t, n).node.base == 0 && !Flying(ReplOf(Pick(t, n)), p)
    requires Pick(t, p).node.id == p && Pick(t, p).pending == {} && (!m.Anyhow? ==> Pick(t, n).node.id == n)
    ensures var s, w := Pick(t, n), Pick(t, p);
            var req := CallOf(s, p);
            Reachable(m, With(With(t, p, Took(w, req), {}), n, Called(s, p, Answer(w, req)), {}))
  {
    hide Reachable, OnAppendReply, FreshRepl, BuildAppend, Took, Answer, Launch, At, Flying;
    var s, w := Pick(t, n), Pick(t, p);
    var req := CallOf(s, p);
    Calls(m, t, n, p);
    var t1 := With(t, n, DoReplicate(s, p).0, {Append(p, req)});
    CallNamesSender(s.node, NextFor(ReplOf(s), p));
    Takes(m, t1, p, req);
    var t2 := With(t1, p, Took(w, req), {AppendReply(p, req, Answer(w, req))});
    Hears(m, t2, n, p, Answer(w, req));
    var t3 := With(t2, n, DoReceiveAppendReply(DoReplicate(s, p).0, p, Answer(w, req)).0, {});
    LessMail(m, t3, With(With(t, p, Took(w, req), {}), n, Called(s, p, Answer(w, req)), {}));
  }

  lemma Proposes(m: Manner, t: Trio, n: NodeId, cmd: Command)
    requires Named(n) && Reachable(m, t) && Pick(t, n).node.role == Leader
    ensures Reachable(m, With(t, n, Pick(t, n).(node := AppendOwn(Pick(t, n).node, cmd)), {}))
  {
    hide Reachable;
    Go(m, t, Propose(n, cmd));
  }

  /** propose: append, then save before anyone hears of the entry. */
  lemma Submits(m: Manner, t: Trio, n: NodeId, cmd: Command)
    requires Named(n) && Reachable(m, t) && Pick(t, n).node.role == Leader
    ensures var s := Pick(t, n);
            var grown := AppendOwn(s.node, cmd);
            Reachable(m, With(t, n, s.(node := grown.(dirty := false), disk := ToDisk(grown)), {}))
  {
    hide Reachable;
    Proposes(m, t, n, cmd);
    var t1 := With(t, n, Pick(t, n).(node := AppendOwn(Pick(t, n).node, cmd)), {});
    Go(m, t1, Save(n, Saved));
    assert t1.mail + {} == t.mail + {};
  }

  lemma StepsDown(m: Manner, t: Trio, n: NodeId)
    requires Named(n) && Reachable(m, t) && Pick(t, n).node.role == Leader
    ensures Reachable(m, With(t, n, Pick(t, n).(node := BecomeFollower(Pick(t, n).node, Pick(t, n).node.term, None)), {}))
  {
    hide Reachable;
    Go(m, t, QuorumLoss(n));
  }
}
