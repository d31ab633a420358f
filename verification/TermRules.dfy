/** The rules every machine keeps in every run, clean or not: a later term is taken
    up wherever it is read, terms never fall, and every request gets one truthful
    answer. */
module TermRules {
  import opened Basics
  import opened Commands
  import opened RaftNode
  import opened LeaderLogic
  import opened Cluster

  /** The term of the message a step reads. */
  function TermRead(step: Step): Option<int> {
    match step
    case ReceiveVote(_, req) => Some(req.term)
    case TallyVote(_, _, resp) => Some(resp.term)
    case ReceiveAppend(_, req) => Some(req.term)
    case ReceiveAppendReply(_, _, resp) => Some(resp.term)
    case _ => None
  }

  /** Whoever reads a later term is in that term afterwards, as a follower, and
      through with its own election or its vote in the old term. Nobody goes back. */
  lemma LaterTermIsAdopted(c: Cluster, step: Step, t: int)
    requires Enabled(c, step) && TermRead(step) == Some(t)
    ensures var (s, s1) := (c.sites[step.n], Next(c, step).sites[step.n]);
            && s1.node.term == Max(s.node.term, t)
            && (t > s.node.term ==> s1.node.role == Follower)
            && (t > s.node.term && s1.node.votedFor.Some? ==>
                  step.ReceiveVote? && s1.node.votedFor == Some(step.vreq.candidate))
            && (t > s.node.term && step.TallyVote? ==> s1.campaign == Idle)
  {
    hide LastIndex, LastTerm, DecideVote, DecideAppend, OnAppendReply, Majority;
    var s := c.sites[step.n];
    match step {
      case ReceiveVote(_, req) => VoteDecision(s.node, req);
      case TallyVote(_, _, _) =>
      case ReceiveAppend(_, req) => AppendDecision(s.node, req);
      case ReceiveAppendReply(_, from, resp) =>
        ReplyMoves(s.node, ReplOf(s), from, s.calls[from], resp);
        ReplyTouchesLittle(s.node, ReplOf(s), from, s.calls[from], resp);
    }
  }

  ghost predicate TermsOrdered(s: Site) { s.disk.term <= s.node.term }

  lemma StepKeepsTerms(c: Cluster, step: Step)
    requires Enabled(c, step) && TermsOrdered(c.sites[step.n])
    ensures var (s, s1) := (c.sites[step.n], SiteStep(c, step).0);
            TermsOrdered(s1) && s1.disk.term >= s.disk.term && (!step.Crash? ==> s1.node.term >= s.node.term)
  {
    hide LastIndex, LastTerm, DecideVote, DecideAppend, OnAppendReply, Majority, BuildAppend;
    if TermRead(step).Some? { LaterTermIsAdopted(c, step, TermRead(step).value); }
  }

  lemma {:induction false} RunKeepsTerms(c: Cluster, steps: seq<Step>, n: NodeId)
    requires IsRun(c, steps) && n in c.sites && forall m | m in c.sites :: TermsOrdered(c.sites[m])
    ensures var k := After(c, steps);
            && n in k.sites && (forall m | m in k.sites :: TermsOrdered(k.sites[m]))
            && k.sites[n].disk.term >= c.sites[n].disk.term
            && (Crash(n) !in steps ==> k.sites[n].node.term >= c.sites[n].node.term)
    decreases |steps|
  {
    hide SiteStep, TermsOrdered;
    if steps == [] {
    } else {
      StepKeepsTerms(c, steps[0]);
      RunKeepsTerms(Next(c, steps[0]), steps[1..], n);
      assert steps == [steps[0]] + steps[1..];
    }
  }

  /** In every run a machine's durable term never falls, and its term in memory only
      in a crash, where it falls back to the durable one. */
  lemma TermsNeverFall(c: Cluster, steps: seq<Step>, more: seq<Step>, n: NodeId)
    requires Initial(c) && IsRun(c, steps) && IsRun(After(c, steps), more) && n in c.sites
    ensures var k := After(c, steps);
            var l := After(k, more);
            && n in k.sites && n in l.sites
            && k.sites[n].disk.term <= l.sites[n].disk.term <= l.sites[n].node.term
            && (Crash(n) !in more ==> k.sites[n].node.term <= l.sites[n].node.term)
  {
    RunKeepsTerms(c, steps, n);
    RunKeepsTerms(After(c, steps), more, n);
    assert TermsOrdered(After(After(c, steps), more).sites[n]);
  }

  /** What a step of answering sends. A refusal leaves at once and carries the
      machine's term. What has to be saved first is answered in a step of its own:
      with success for the term it was decided in if the save went through or there
      was nothing left to save, and otherwise with a refusal. */
  lemma AnswersAreTruthful(c: Cluster, step: Step)
    requires Enabled(c, step)
    ensures var (s, k) := (c.sites[step.n], Next(c, step));
            var s1 := k.sites[step.n];
            match step
            case ReceiveVote(_, req) =>
              var granted := DecideVote(s.node, req).1.granted;
              && k.net == (if granted then c.net
                           else c.net + {VoteReply(s.node.id, req.candidate, req.term, VoteResponse(s1.node.term, false))})
              && s1.pending == (if granted then s.pending + {PendingVote(req.candidate, req.term)} else s.pending)
            case AnswerVote(_, candidate, term, out) =>
              var ok := !s.node.dirty || out == Saved;
              && k.net == c.net + {VoteReply(s.node.id, candidate, term, VoteResponse(if ok then term else s.node.term, ok))}
              && s1.pending == s.pending - {PendingVote(candidate, term)}
            case ReceiveAppend(_, req) =>
              var out := DecideAppend(s.node, req);
              && k.net == (if out.changed then c.net
                           else c.net + {AppendReply(s.node.id, req, AppendResponse(s1.node.term, out.resp.success))})
              && s1.pending == (if out.changed then s.pending + {PendingAppend(req, s1.node.term)} else s.pending)
            case AnswerAppend(_, req, term, out) =>
              var ok := !s.node.dirty || out == Saved;
              && k.net == c.net + {AppendReply(s.node.id, req, AppendResponse(if ok then term else s.node.term, ok))}
              && s1.pending == s.pending - {PendingAppend(req, term)}
            case _ => true
  {
    hide LastIndex, LastTerm, DecideVote, DecideAppend, OnAppendReply, Majority;
    var s := c.sites[step.n];
    match step {
      case ReceiveVote(_, req) => VoteDecision(s.node, req);
      case ReceiveAppend(_, req) => AppendDecision(s.node, req);
      case _ =>
    }
  }
}
