/** A simple discipline that makes an orderly run careful: no save fails, no append is
    handled while an earlier one of that machine waits for its save, and a
    proposal is saved before anything else happens. */
module Patience {
  import opened Basics
  import opened Commands
  import opened RaftNode
  import opened LeaderLogic
  import opened Cluster
  import opened ClusterSafety
  import opened Completeness
  import opened StateMachine
  import opened Durability

  ghost predicate Patient(c: Cluster, step: Step) {
    && (step.SaveCampaign? || step.AnswerVote? || step.Save? || step.AnswerAppend? ==> step.out == Saved)
    && (step.ReceiveAppend? ==> step.n in c.sites && NoneWaiting(c.sites[step.n]))
  }

  ghost predicate IsPatientRun(c: Cluster, steps: seq<Step>)
    decreases |steps|
  {
    steps == []
    || (&& Enabled(c, steps[0]) && Clean(c, steps[0]) && Orderly(c, steps[0]) && Patient(c, steps[0])
        && (steps[0].Propose? ==> |steps| > 1 && steps[1] == Save(steps[0].n, Saved))
        && IsPatientRun(Next(c, steps[0]), steps[1..]))
  }

  /** The log is on disk whenever no append waits, throughout an election that was
      solicited for, and throughout a leadership. */
  ghost predicate Tended(s: Site) {
    && InStep(s)
    && (NoneWaiting(s) || s.node.role == Leader || (s.node.role == Candidate && s.campaign.Soliciting?) ==> LogSaved(s))
  }

  lemma AppendFollows(s: NodeState, req: AppendRequest)
    ensures var out := DecideAppend(s, req);
            (out.state == s && !out.changed) || out.state.role == Follower
  {
    hide Merge, Merged, CheckPrevLog;
  }

  lemma PatientKeepsTended(c: Cluster, step: Step)
    requires step.n in c.sites && Enabled(c, step) && Orderly(c, step) && Patient(c, step) && !step.Propose?
    requires Tended(c.sites[step.n])
    ensures Tended(SiteStep(c, step).0)
  {
    hide LastIndex, LastTerm, Majority, BuildAppend, OnAppendReply, DecideAppend, FreshRepl, LogFresh, NextFor, Prompt,
         MatchesWithin;
    var s, s1 := c.sites[step.n], SiteStep(c, step).0;
    StepKeepsInStep(c, step);
    if step.ReceiveAppend? {
      QuietAppendKeepsDisk(s.node, step.areq);
      AppendFollows(s.node, step.areq);
      if DecideAppend(s.node, step.areq).changed {
        assert PendingAppend(step.areq, DecideAppend(s.node, step.areq).resp.term) in s1.pending;
      } else {
        assert NoneWaiting(s) && LogSaved(s1);
      }
    } else if step.ReceiveAppendReply? {
      ReplyTouchesLittle(s.node, ReplOf(s), step.from, s.calls[step.from], step.aresp);
    }
    assert NoneWaiting(s1) ==> NoneWaiting(s) || step.AnswerAppend?;
  }

  /** A proposal and its save. */
  lemma SavedProposalKeepsTended(s: Site, cmd: Command)
    requires Tended(s) && s.node.role == Leader
    ensures Tended(PersistSite(s.(node := AppendOwn(s.node, cmd)), Saved))
  {}

  lemma SaveIsCareful(c: Cluster, step: Step)
    requires step.Save?
    ensures Careful(c, step)
  {}

  lemma ProposeThenSave(c: Cluster, step: Step, save: Step)
    requires step.n in c.sites && Enabled(c, step) && step.Propose? && save == Save(step.n, Saved)
    requires Enabled(Next(c, step), save)
    requires forall n | n in c.sites :: Tended(c.sites[n])
    ensures forall n | n in Next(Next(c, step), save).sites :: Tended(Next(Next(c, step), save).sites[n])
  {
    hide Tended;
    SavedProposalKeepsTended(c.sites[step.n], step.cmd);
  }

  lemma TendedIsCareful(c: Cluster, step: Step)
    requires step.n in c.sites && Enabled(c, step) && Patient(c, step) && Tended(c.sites[step.n])
    ensures Careful(c, step)
  {
    hide NextFor, ReplOf, Flying;
  }

  lemma {:induction false} TendedRunIsCareful(c: Cluster, steps: seq<Step>)
    requires IsPatientRun(c, steps) && forall n | n in c.sites :: Tended(c.sites[n])
    ensures IsCarefulRun(c, steps)
    decreases |steps|
  {
    hide SiteStep, Tended, Enabled, Clean, Orderly;
    if steps == [] {
    } else {
      var step := steps[0];
      var c1 := Next(c, step);
      EnabledSite(c, step);
      TendedIsCareful(c, step);
      if step.Propose? {
        var c2 := Next(c1, steps[1]);
        ProposeThenSave(c, step, steps[1]);
        assert steps[1..][0] == steps[1] && steps[1..][1..] == steps[2..];
        TendedRunIsCareful(c2, steps[2..]);
        SaveIsCareful(c1, steps[1]);
        assert IsCarefulRun(c1, steps[1..]);
      } else {
        PatientKeepsTended(c, step);
        TendedRunIsCareful(c1, steps[1..]);
      }
    }
  }

  /** Every patient run is careful, so what it commits is on the disks of a majority. */
  lemma PatientRunIsCareful(c: Cluster, steps: seq<Step>)
    requires Initial(c) && IsPatientRun(c, steps)
    ensures IsCarefulRun(c, steps)
  {
    hide IsPatientRun, IsCarefulRun;
    TendedRunIsCareful(c, steps);
  }

  lemma {:induction false} CarefulIsRun(c: Cluster, steps: seq<Step>)
    requires IsCarefulRun(c, steps)
    ensures IsRun(c, steps)
    decreases |steps|
  {
    hide Enabled, Clean, Orderly, Careful, Next;
    if steps == [] {
    } else {
      CarefulIsRun(Next(c, steps[0]), steps[1..]);
    }
  }

  lemma CarefulNothing(c: Cluster)
    ensures IsCarefulRun(c, [])
  {}

  /** The simplest form: what any machine has committed at the end of a patient run is
      on the disks of a majority. */
  lemma PatientCommitsAreStored(c: Cluster, steps: seq<Step>, v: NodeId) returns (quorum: set<NodeId>)
    requires Initial(c) && IsPatientRun(c, steps)
    ensures IsRun(c, steps)
    ensures var r := After(c, steps).sites;
            v in r && r[v].node.commitIndex > 0 ==>
              && quorum <= r.Keys && 2 * |quorum| > |r| && r[v].node.commitIndex <= |r[v].node.log|
              && forall p | p in quorum :: r[v].node.log[..r[v].node.commitIndex] <= r[p].disk.log
  {
    hide IsPatientRun, IsCarefulRun, Initial;
    quorum := {};
    PatientRunIsCareful(c, steps);
    CarefulIsRun(c, steps);
    var k := After(c, steps);
    if v in k.sites {
      CarefulNothing(k);
      quorum := CommittedIsOnMajorityDisks(c, steps, k, v, []);
    }
  }
}
