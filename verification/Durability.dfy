/** What a success reply to an append says about the disk. In every reachable state:
    exactly when it is backed by a saved log. Over careful runs, those in which
    requests are handled and sent with a saved log: whatever any machine commits
    is on the disks of a majority from then on. */
module Durability {
  import opened Basics
  import opened Commands
  import opened RaftNode
  import opened MergeExactness
  import opened Commit
  import opened LeaderLogic
  import opened Cluster
  import opened ClusterInvariant
  import opened ClusterSteps
  import opened ClusterSafety
  import opened ClusterCommit
  import opened Chronicle
  import opened Completeness
  import opened Stewardship
  import opened Upkeep
  import opened StateMachine
  import R = Replication

  // ---- every reachable state ----

  ghost predicate LogSaved(s: Site) { s.disk.log == s.node.log }

  /** A node with nothing to save is in step with its disk. */
  ghost predicate InStep(s: Site) { !s.node.dirty ==> s.disk == ToDisk(s.node) }

  lemma QuietAppendKeepsDisk(s: NodeState, req: AppendRequest)
    ensures var s1 := DecideAppend(s, req).state;
            && (!s1.dirty ==> !s.dirty && ToDisk(s1) == ToDisk(s))
            && (!DecideAppend(s, req).changed ==> s1.log == s.log)
  {
    hide Merge, Merged, CheckPrevLog;
    if !Merged(s.log, s.base, req.prevLogIndex, req.entries) {
      UnreportedMergeKeepsLog(s.log, s.base, req.prevLogIndex, req.entries);
    }
  }

  lemma StepKeepsInStep(c: Cluster, step: Step)
    requires Enabled(c, step) && InStep(c.sites[step.n])
    ensures InStep(SiteStep(c, step).0)
  {
    hide LastIndex, LastTerm, Majority, BuildAppend, OnAppendReply, DecideAppend, FreshRepl, LogFresh;
    var s := c.sites[step.n];
    if step.ReceiveAppend? { QuietAppendKeepsDisk(s.node, step.areq); }
    if step.ReceiveAppendReply? { ReplyTouchesLittle(s.node, ReplOf(s), step.from, s.calls[step.from], step.aresp); }
  }

  lemma {:induction false} RunKeepsInStep(c: Cluster, steps: seq<Step>)
    requires IsRun(c, steps) && forall n | n in c.sites :: InStep(c.sites[n])
    ensures forall n | n in After(c, steps).sites :: InStep(After(c, steps).sites[n])
    decreases |steps|
  {
    hide Enabled, SiteStep, InStep;
    if steps == [] {
    } else {
      EnabledSite(c, steps[0]);
      StepKeepsInStep(c, steps[0]);
      RunKeepsInStep(Next(c, steps[0]), steps[1..]);
    }
  }

  /** The step sends a reply that accepts an append request. */
  ghost predicate Accepts(c: Cluster, step: Step)
    requires Enabled(c, step)
  {
    exists p, req, t :: AppendReply(p, req, AppendResponse(t, true)) in SiteStep(c, step).1
  }

  lemma AcceptedExactlyWhenSaved(c: Cluster, step: Step)
    requires Enabled(c, step) && InStep(c.sites[step.n]) && Accepts(c, step)
    ensures var (s, s1) := (c.sites[step.n], SiteStep(c, step).0);
            && s1.node.log == s.node.log
            && (LogSaved(s1) <==> step.AnswerAppend? || LogSaved(s))
            && (step.AnswerAppend? ==> PersistOk(s, step.out))
  {
    hide LastIndex, LastTerm, Majority, BuildAppend, OnAppendReply, DecideAppend, FreshRepl, LogFresh;
    var s := c.sites[step.n];
    assert step.ReceiveAppend? || step.AnswerAppend?;
    if step.ReceiveAppend? { QuietAppendKeepsDisk(s.node, step.areq); }
  }

  /** In every reachable state, a step that sends a success reply to an append leaves
      the machine's log on its disk if and only if it is the answer after a
      successful save, or the log was on disk already. */
  lemma SuccessIsSavedExactly(c: Cluster, steps: seq<Step>, step: Step)
    requires Initial(c) && IsRun(c, steps) && Enabled(After(c, steps), step) && Accepts(After(c, steps), step)
    ensures var k := After(c, steps);
            var (s, s1) := (k.sites[step.n], SiteStep(k, step).0);
            && s1.node.log == s.node.log
            && (LogSaved(s1) <==> (step.AnswerAppend? && PersistOk(s, step.out)) || LogSaved(s))
            && (!s.node.dirty ==> LogSaved(s))
  {
    hide Enabled, SiteStep, Accepts;
    RunKeepsInStep(c, steps);
    EnabledSite(After(c, steps), step);
    AcceptedExactlyWhenSaved(After(c, steps), step);
  }

  // ---- careful runs ----

  /** Requests are handled and sent only while the machine's log is on its disk. */
  ghost predicate Careful(c: Cluster, step: Step) {
    step.ReceiveAppend? || step.Replicate? ==> step.n in c.sites && LogSaved(c.sites[step.n])
  }

  ghost predicate IsCarefulRun(c: Cluster, steps: seq<Step>)
    decreases |steps|
  {
    steps == []
    || (&& Enabled(c, steps[0]) && Clean(c, steps[0]) && Orderly(c, steps[0]) && Careful(c, steps[0])
        && IsCarefulRun(Next(c, steps[0]), steps[1..]))
  }

  /** `v` sent entries of its term `t` up to index `k`, or accepted them. */
  ghost predicate SentUpTo(net: set<Message>, h: History, v: NodeId, t: int, k: int) {
    && LastWinner(h, t, v)
    && exists p, req :: Append(p, req) in net && req.leader == v && req.term == t && !R.GoesAstray(req) && R.EndOf(req) >= k
  }

  ghost predicate TookUpTo(net: set<Message>, h: History, v: NodeId, t: int, k: int) {
    exists req :: AppendReply(v, req, AppendResponse(t, true)) in net && req.term == t && LastWinner(h, t, req.leader)
                  && R.EndOf(req) >= k
  }

  ghost predicate Spoke(net: set<Message>, h: History, v: NodeId, t: int, k: int) {
    SentUpTo(net, h, v, t, k) || TookUpTo(net, h, v, t, k)
  }

  /** What a machine has spoken for is on its disk, or a winner broke the chain. */
  ghost predicate Stands(c: Cluster, h: History, g: Chronicle, v: NodeId, t: int, k: int)
    requires v in c.sites && Mark(h, t, k)
  {
    Spoke(c.net, h, v, t, k) ==>
      Upto(h, t, k) <= c.sites[v].disk.log || Broken(h, g, t, Upto(h, t, k), c.sites[v].node.term)
  }

  /** A leader has sent nothing beyond its log. */
  ghost predicate SentWithin(c: Cluster, n: NodeId)
    requires n in c.sites
  {
    c.sites[n].node.role == Leader ==>
      forall p, req ::
        Append(p, req) in c.net && req.leader == n && req.term == c.sites[n].node.term && !R.GoesAstray(req) ==>
        R.EndOf(req) <= |c.sites[n].node.log|
  }

  ghost predicate NoneAstray(c: Cluster) {
    forall v, req :: v in c.sites && HasAcked(c, v, req) ==> !R.GoesAstray(req)
  }

  ghost predicate OnDisk(c: Cluster, h: History, g: Chronicle) {
    && |c.sites| >= 2 && NoneAstray(c)
    && (forall n | n in c.sites :: SentWithin(c, n))
    && (forall t, k, v | v in c.sites && Mark(h, t, k) :: Stands(c, h, g, v, t, k))
  }

  lemma SpokenIsVouched(c: Cluster, h: History, v: NodeId, t: int, k: int)
    requires v in c.sites && Spoke(c.net, h, v, t, k)
    ensures Vouches(c, h, v, t, k)
  {
    if TookUpTo(c.net, h, v, t, k) {
      var req :| AppendReply(v, req, AppendResponse(t, true)) in c.net && req.term == t && LastWinner(h, t, req.leader)
                 && R.EndOf(req) >= k;
      assert HasAcked(c, v, req);
    }
  }

  /** A disk changes only by taking the log in memory. */
  lemma DiskTakesLog(c: Cluster, step: Step)
    requires Enabled(c, step) && !step.Crash?
    ensures var (s, s1) := (c.sites[step.n], SiteStep(c, step).0);
            s1.disk.log == s.disk.log || s1.disk.log == s.node.log
  {
    hide LastIndex, LastTerm, Majority, BuildAppend, OnAppendReply, DecideAppend, FreshRepl, LogFresh, DecideVote;
  }

  lemma SiteInStep(c: Cluster, h: History, n: NodeId)
    requires Inv(c, h) && n in c.sites
    ensures InStep(c.sites[n])
  {
    SiteIsOk(c, h, n);
  }

  lemma NewReply(c: Cluster, h: History, step: Step, v: NodeId, req: AppendRequest, t: int)
    requires Inv(c, h) && step.n in c.sites && Enabled(c, step) && Careful(c, step)
    requires AppendReply(v, req, AppendResponse(t, true)) in SiteStep(c, step).1
    ensures v == step.n && LogSaved(SiteStep(c, step).0)
  {
    hide LastIndex, LastTerm, Majority, OnAppendReply, DecideAppend, FreshRepl, LogFresh, DecideVote, Inv,
         ConcludeElection, BuildAppend;
    NameOf(c, h, step.n);
    SiteInStep(c, h, step.n);
    AcceptedExactlyWhenSaved(c, step);
  }

  lemma NewCall(c: Cluster, h: History, step: Step, p: NodeId, req: AppendRequest)
    requires Inv(c, h) && step.n in c.sites && Enabled(c, step) && Append(p, req) in SiteStep(c, step).1
    ensures step.Replicate? && req.leader == step.n && c.sites[step.n].node.role == Leader
    ensures req.term == c.sites[step.n].node.term
    ensures R.GoesAstray(req) || R.EndOf(req) == |c.sites[step.n].node.log|
    ensures SiteStep(c, step).0.node == c.sites[step.n].node && SiteStep(c, step).0.disk == c.sites[step.n].disk
  {
    hide LastIndex, LastTerm, Majority, OnAppendReply, DecideAppend, FreshRepl, LogFresh, DecideVote, Inv,
         ConcludeElection, TermAt;
    NameOf(c, h, step.n);
    CallCarries(c, h, step.n, p);
  }

  lemma SameLogs(c: Cluster, step: Step)
    requires Enabled(c, step) && step.n in c.sites && step.Replicate? && Careful(c, step)
    requires SiteStep(c, step).0.node == c.sites[step.n].node && SiteStep(c, step).0.disk == c.sites[step.n].disk
    ensures LogSaved(SiteStep(c, step).0)
  {}

  /** Whoever newly speaks for something has its log on disk. */
  lemma SpeaksSaved(c: Cluster, h: History, step: Step, v: NodeId, t: int, k: int)
    requires Inv(c, h) && step.n in c.sites && Enabled(c, step) && Careful(c, step)
    requires Spoke(Next(c, step).net, h, v, t, k) && !Spoke(c.net, h, v, t, k)
    ensures v == step.n && LogSaved(SiteStep(c, step).0)
  {
    hide SiteStep, Inv, LogSaved;
    var sent := SiteStep(c, step).1;
    if TookUpTo(Next(c, step).net, h, v, t, k) {
      var req :| AppendReply(v, req, AppendResponse(t, true)) in c.net + sent && req.term == t && LastWinner(h, t, req.leader)
                 && R.EndOf(req) >= k;
      NewReply(c, h, step, v, req, t);
    } else {
      var p, req :| Append(p, req) in c.net + sent && req.leader == v && req.term == t && !R.GoesAstray(req)
                    && R.EndOf(req) >= k;
      NewCall(c, h, step, p, req);
      SameLogs(c, step);
    }
  }

  // ---- what careful steps keep ----

  lemma SpokeLater(net: set<Message>, h: History, h1: History, v: NodeId, t: int, k: int)
    requires Mark(h, t, k) && Continues(h, h1) && Mark(h1, t, k)
    ensures Spoke(net, h1, v, t, k) <==> Spoke(net, h, v, t, k)
  {
    MarkStays(h, h1, t, k);
  }

  /** What the step's machine stood for, it still stands for. */
  lemma DiskStands(c: Cluster, h: History, g: Chronicle, step: Step, t: int, k: int)
    requires Sane(c, h, g, step) && Mark(h, t, k) && Spoke(c.net, h, step.n, t, k) && Stands(c, h, g, step.n, t, k)
    ensures var (s1, e) := (SiteStep(c, step).0, Upto(h, t, k));
            e <= s1.disk.log || Broken(h, g, t, e, s1.node.term)
  {
    hide Inv, RepliesOk, Noted, LeadSound, CommitSound, SiteStep, Spoke, Broken, Clean, DecideAppend;
    var s, s1, e := c.sites[step.n], SiteStep(c, step).0, Upto(h, t, k);
    DiskTakesLog(c, step);
    SpokenIsVouched(c, h, step.n, t, k);
    assert Watched(c, h, g, step.n, t, k);
    if step.ReceiveAppend? {
      PromptTake(c, h, g, step.n, step.areq);
      StateAfterAppend(c, step);
    } else {
      LogsGrow(c, h, step);
    }
    if Broken(h, g, t, e, s.node.term) { BrokenLater(h, g, t, e, s.node.term, s1.node.term); }
  }

  lemma NewlyStands(c: Cluster, h: History, g: Chronicle, v: NodeId, t: int, k: int)
    requires AllWatched(c, h, g) && v in c.sites && Mark(h, t, k) && LogSaved(c.sites[v]) && Spoke(c.net, h, v, t, k)
    ensures Upto(h, t, k) <= c.sites[v].disk.log || Broken(h, g, t, Upto(h, t, k), c.sites[v].node.term)
  {
    hide Spoke, Broken;
    SpokenIsVouched(c, h, v, t, k);
    assert Watched(c, h, g, v, t, k);
  }

  lemma OldMarkStands(c: Cluster, h: History, g: Chronicle, step: Step, t: int, k: int, v: NodeId)
    requires Sane(c, h, g, step) && Careful(c, step) && OnDisk(c, h, g) && Mark(h, t, k) && v in c.sites
    ensures v in Next(c, step).sites && Mark(Record(c, h, step), t, k)
    ensures Stands(Next(c, step), Record(c, h, step), Note(c, g, step), v, t, k)
  {
    hide Inv, RepliesOk, Noted, AllWatched, LeadSound, CommitSound, SiteStep, Spoke, Broken, Clean, Record, Note,
         Enabled, Mark, Upto;
    var c1, h1, g1, e := Next(c, step), Record(c, h, step), Note(c, g, step), Upto(h, t, k);
    RecordContinues(c, h, step);
    NoteGrows(c, h, g, step);
    MarkStays(h, h1, t, k);
    BrokenStays(h, g, h1, g1, step.n, t, e);
    SpokeLater(c1.net, h, h1, v, t, k);
    assert Stands(c, h, g, v, t, k);
    if Spoke(c1.net, h, v, t, k) {
      if !Spoke(c.net, h, v, t, k) {
        SpeaksSaved(c, h, step, v, t, k);
        StepKeepsWatch(c, h, g, step);
        NewlyStands(c1, h1, g1, v, t, k);
      } else if v == step.n {
        DiskStands(c, h, g, step, t, k);
      }
    }
  }

  lemma TookWithin(c: Cluster, h: History, g: Chronicle, n: NodeId, v: NodeId, k: int)
    requires n in c.sites && c.sites[n].node.role == Leader && LeadSound(c, g, n)
    requires LastWinner(h, c.sites[n].node.term, n)
    requires v in c.sites && k > |c.sites[n].node.log|
    ensures !TookUpTo(c.net, h, v, c.sites[n].node.term, k)
  {
    hide LeadSound;
    var t := c.sites[n].node.term;
    if TookUpTo(c.net, h, v, t, k) {
      var req :| AppendReply(v, req, AppendResponse(t, true)) in c.net && req.term == t && LastWinner(h, t, req.leader)
                 && R.EndOf(req) >= k;
      AckWithin(c, g, n, v, req);
    }
  }

  lemma NothingSentBeyond(c: Cluster, h: History, n: NodeId, v: NodeId, k: int)
    requires n in c.sites && c.sites[n].node.role == Leader && SentWithin(c, n)
    requires LastWinner(h, c.sites[n].node.term, n)
    requires k > |c.sites[n].node.log|
    ensures !SentUpTo(c.net, h, v, c.sites[n].node.term, k)
  {}

  lemma SameWins(net: set<Message>, h: History, h1: History, v: NodeId, t: int, k: int)
    requires h1.wins == h.wins
    ensures Spoke(net, h1, v, t, k) <==> Spoke(net, h, v, t, k)
  {
    assert forall n :: LastWinner(h1, t, n) <==> LastWinner(h, t, n);
  }

  /** Nobody has spoken for an entry just proposed. */
  lemma NewMarkUnspoken(c: Cluster, h: History, g: Chronicle, step: Step, v: NodeId)
    requires Sane(c, h, g, step) && OnDisk(c, h, g) && step.Propose? && v in c.sites
    ensures !Spoke(Next(c, step).net, Record(c, h, step), v, c.sites[step.n].node.term, |c.sites[step.n].node.log| + 1)
  {
    hide Inv, RepliesOk, Noted, AllWatched, CommitSound, Stands, NoneAstray, LeadSound, SentWithin, SentUpTo, TookUpTo;
    var n, t, k := step.n, c.sites[step.n].node.term, |c.sites[step.n].node.log| + 1;
    LeaderLogIsHistory(c, h, n);
    TookWithin(c, h, g, n, v, k);
    NothingSentBeyond(c, h, n, v, k);
    assert Next(c, step).net == c.net;
    SameWins(c.net, h, Record(c, h, step), v, t, k);
  }

  lemma EveryoneStands(c: Cluster, h: History, g: Chronicle, step: Step, t: int, k: int, v: NodeId)
    requires Sane(c, h, g, step) && Careful(c, step) && OnDisk(c, h, g) && v in Next(c, step).sites
    requires Mark(Record(c, h, step), t, k)
    ensures Stands(Next(c, step), Record(c, h, step), Note(c, g, step), v, t, k)
  {
    hide Good, Record, Spoke, Mark, SiteStep, Clean, OnDisk, Careful;
    if Mark(h, t, k) {
      OldMarkStands(c, h, g, step, t, k, v);
    } else {
      SaneInv(c, h, g, step);
      NewMark(c, h, step, t, k);
      NewMarkUnspoken(c, h, g, step, v);
    }
  }

  lemma WonTerm(c: Cluster, h: History, step: Step)
    requires step.FinishElection? && Winning(c, step.n) && Enabled(c, step)
    ensures SiteStep(c, step).0.node.term == c.sites[step.n].node.term
  {
    WinSite(c, h, step.n);
  }

  lemma LeaderTakesNothing(c: Cluster, h: History, step: Step)
    requires Inv(c, h) && Enabled(c, step) && step.ReceiveAppend? && step.n in c.sites
    requires c.sites[step.n].node.role == Leader
    requires SiteStep(c, step).0.node.role == Leader
    ensures SiteStep(c, step).0.node.log == c.sites[step.n].node.log
  {
    hide Merge, Merged, CheckPrevLog, Inv;
  }

  lemma OldCallWithin(c: Cluster, h: History, g: Chronicle, step: Step, p: NodeId, req: AppendRequest)
    requires Sane(c, h, g, step) && SentWithin(c, step.n) && SiteStep(c, step).0.node.role == Leader
    requires Append(p, req) in c.net && req.leader == step.n && req.term == SiteStep(c, step).0.node.term
    requires !R.GoesAstray(req)
    ensures R.EndOf(req) <= |SiteStep(c, step).0.node.log|
  {
    hide Inv, RepliesOk, Noted, AllWatched, LeadSound, CommitSound, SiteStep, Clean, R.GoesAstray, R.EndOf;
    var n := step.n;
    if step.FinishElection? && Winning(c, n) {
      WonTerm(c, h, step);
      NothingSentYet(c, h, n, p, req);
    } else {
      LedBefore(c, h, step);
      if step.ReceiveAppend? { LeaderTakesNothing(c, h, step); } else { LogsGrow(c, h, step); }
    }
  }

  lemma StepKeepsSentWithin(c: Cluster, h: History, g: Chronicle, step: Step, n: NodeId)
    requires Sane(c, h, g, step) && OnDisk(c, h, g) && n in c.sites
    ensures n in Next(c, step).sites && SentWithin(Next(c, step), n)
  {
    hide Inv, RepliesOk, Noted, AllWatched, LeadSound, CommitSound, SiteStep, Stands, Clean, NoneAstray, R.GoesAstray,
         R.EndOf, Winning;
    var c1 := Next(c, step);
    if c1.sites[n].node.role == Leader {
      var t := c1.sites[n].node.term;
      assert SentWithin(c, n);
      forall p, req | Append(p, req) in c1.net && req.leader == n && req.term == t && !R.GoesAstray(req)
        ensures R.EndOf(req) <= |c1.sites[n].node.log|
      {
        if Append(p, req) !in c.net {
          NewCall(c, h, step, p, req);
        } else if n == step.n {
          OldCallWithin(c, h, g, step, p, req);
        }
      }
    }
  }

  lemma StepKeepsNoneAstray(c: Cluster, h: History, g: Chronicle, step: Step)
    requires Sane(c, h, g, step) && NoneAstray(c)
    ensures NoneAstray(Next(c, step))
  {
    hide Inv, RepliesOk, Noted, AllWatched, CommitSound, SiteStep, Clean, HasAcked, DecideAppend, R.GoesAstray,
         LeadSound;
    var c1 := Next(c, step);
    NameOf(c, h, step.n);
    forall v, req | v in c1.sites && HasAcked(c1, v, req) ensures !R.GoesAstray(req) {
      NewAcks(c, step, v, req);
      if !HasAcked(c, v, req) { PromptTake(c, h, g, v, req); }
    }
  }

  lemma StepKeepsOnDisk(c: Cluster, h: History, g: Chronicle, step: Step)
    requires Sane(c, h, g, step) && Careful(c, step) && OnDisk(c, h, g)
    ensures OnDisk(Next(c, step), Record(c, h, step), Note(c, g, step))
  {
    hide Good, Record, Note, Stands, Mark, SiteStep, Clean, NoneAstray, SentWithin, Careful, Orderly, Enabled;
    var c1, h1, g1 := Next(c, step), Record(c, h, step), Note(c, g, step);
    assert c1.sites.Keys == c.sites.Keys && |c1.sites| == |c1.sites.Keys| && |c.sites| == |c.sites.Keys|;
    StepKeepsNoneAstray(c, h, g, step);
    forall n | n in c1.sites ensures SentWithin(c1, n) { StepKeepsSentWithin(c, h, g, step, n); }
    forall t, k, v | v in c1.sites && Mark(h1, t, k) ensures Stands(c1, h1, g1, v, t, k) {
      EveryoneStands(c, h, g, step, t, k, v);
    }
  }

  // ---- whole runs ----

  lemma InitialOnDisk(c: Cluster)
    requires Initial(c)
    ensures OnDisk(c, NO_HISTORY, BLANK_PAGES)
  {}

  lemma {:induction false} RunKeepsOnDisk(c: Cluster, h: History, g: Chronicle, steps: seq<Step>)
    returns (h1: History, g1: Chronicle)
    requires Good(c, h, g) && OnDisk(c, h, g) && IsCarefulRun(c, steps)
    ensures IsRun(c, steps) && Good(After(c, steps), h1, g1) && OnDisk(After(c, steps), h1, g1)
    ensures Lasts(c, h, After(c, steps), h1)
    decreases |steps|
  {
    hide Good, OnDisk, Lasts, Next, Enabled, Clean, Orderly, Careful, Record, Note;
    if steps == [] {
      h1, g1 := h, g;
      LastsAsIs(c, h);
    } else {
      var step := steps[0];
      var c1, h2 := Next(c, step), Record(c, h, step);
      EnabledSite(c, step);
      assert Sane(c, h, g, step);
      SaneInv(c, h, g, step);
      StepKeepsGood(c, h, g, step);
      StepKeepsOnDisk(c, h, g, step);
      LastsThroughStep(c, h, step);
      h1, g1 := RunKeepsOnDisk(c1, h2, Note(c, g, step), steps[1..]);
      LastsOn(c, h, c1, h2, After(c, steps), h1);
    }
  }

  lemma AnotherSaid(c: Cluster, h: History, t: int, k: int, q: set<NodeId>, v: NodeId)
    returns (p: NodeId, req: AppendRequest)
    requires SaidBy(c, h, t, k, q) && |c.sites| >= 2 && LastWinner(h, t, v)
    ensures p in q && AppendReply(p, req, AppendResponse(t, true)) in c.net && req.term == t && req.leader == v
    ensures R.EndOf(req) >= k
  {
    if q <= {v} { SubsetCard(q, {v}); }
    p :| p in q && p != v;
    assert SaidUpTo(c.net, h, p, t, k);
    req :| AppendReply(p, req, AppendResponse(t, true)) in c.net && req.term == t && LastWinner(h, t, req.leader)
           && R.EndOf(req) >= k;
  }

  /** Whoever helps settle something has spoken for it. */
  lemma SaidIsSpoken(c: Cluster, h: History, t: int, k: int, q: set<NodeId>, v: NodeId)
    requires SaidBy(c, h, t, k, q) && |c.sites| >= 2 && v in q && RepliesOk(c) && NoneAstray(c)
    ensures Spoke(c.net, h, v, t, k)
  {
    assert SaidUpTo(c.net, h, v, t, k);
    if LastWinner(h, t, v) {
      var p, req := AnotherSaid(c, h, t, k, q, v);
      assert HasAcked(c, p, req);
      assert Append(p, req) in c.net;
    }
  }

  lemma SpeakerStored(c: Cluster, h: History, g: Chronicle, t: int, k: int, q: set<NodeId>, v: NodeId)
    requires Good(c, h, g) && OnDisk(c, h, g) && Mark(h, t, k) && SaidBy(c, h, t, k, q) && v in q
    ensures Upto(h, t, k) <= c.sites[v].disk.log
  {
    hide Inv, RepliesOk, Noted, LeadSound, CommitSound, AllWatched, Broken, Spoke, NoneAstray, SentWithin;
    SaidIsSpoken(c, h, t, k, q, v);
    assert Stands(c, h, g, v, t, k);
    NeverBroken(c, h, g, t, k, c.sites[v].node.term);
  }

  lemma MajorityStores(c: Cluster, h: History, g: Chronicle, s: NodeState) returns (quorum: set<NodeId>)
    requires Good(c, h, g) && OnDisk(c, h, g) && CommitSound(c, h, s)
    ensures s.commitIndex > 0 ==> quorum <= c.sites.Keys && 2 * |quorum| > |c.sites|
    ensures forall p | p in quorum :: p in c.sites && Committed(s) <= c.sites[p].disk.log
  {
    hide Good, OnDisk, SaidUpTo;
    quorum := {};
    if s.commitIndex > 0 {
      var t, k :| Backs(c, h, t, k, s);
      var q :| SaidBy(c, h, t, k, q);
      quorum := q;
      forall p | p in q ensures Committed(s) <= c.sites[p].disk.log {
        SpeakerStored(c, h, g, t, k, q, p);
        assert Committed(s) == Upto(h, t, k)[..s.commitIndex];
      }
    }
  }

  /** What any machine has committed at one point of a careful run, the disks of a
      majority begin with at every later point. */
  lemma CommittedIsOnMajorityDisks(c: Cluster, before: seq<Step>, k: Cluster, v: NodeId, after: seq<Step>)
    returns (quorum: set<NodeId>)
    requires Initial(c) && IsCarefulRun(c, before) && IsRun(c, before) && After(c, before) == k
    requires IsCarefulRun(k, after)
    requires v in k.sites
    ensures IsRun(k, after) && 0 <= k.sites[v].node.commitIndex <= |k.sites[v].node.log|
    ensures var (s, r) := (k.sites[v].node, After(k, after).sites);
            && (s.commitIndex > 0 ==> quorum <= r.Keys && 2 * |quorum| > |r|)
            && forall p | p in quorum :: p in r && Committed(s) <= r[p].disk.log
  {
    hide Good, OnDisk, IsCarefulRun, CommitSound, Lasts, Initial, After;
    InitialGood(c);
    InitialOnDisk(c);
    var h, g := RunKeepsOnDisk(c, NO_HISTORY, BLANK_PAGES, before);
    var h1, g1 := RunKeepsOnDisk(k, h, g, after);
    GoodCommits(k, h, g, v);
    BackingLasts(k, h, After(k, after), h1, k.sites[v].node);
    quorum := MajorityStores(After(k, after), h1, g1, k.sites[v].node);
  }
}
