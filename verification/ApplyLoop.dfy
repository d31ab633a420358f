/** The apply loop against the rest of the node. The loop's lock regions are
    separate steps; between any two of them the log may become any other log, the
    commit index may move anywhere, and the applied prefix may be compacted away. */
module ApplyLoop {
  import opened Basics
  import opened Commands
  import opened RaftNode
  import opened Store

  /** Where the loop's single goroutine is. */
  datatype Pc =
    | Waiting
    | Picked(idx: int, cmd: Option<Command>)     // idx chosen, entry copied, lock released
    | Cleared(idx: int, cmd: Option<Command>)    // re-checked under applyMu
    | Wrote(idx: int, reply: Reply)              // store written, index not yet bumped
    | Bumped(idx: int, reply: Reply)             // index bumped, waiters not yet told

  /** What became of an index: its command ran at some clock reading, or it was
      passed over. */
  datatype Turn = Ran(cmd: Command, now: int) | Passed

  /** `log` is the whole log, entry i at position i - 1; entries up to `base`
      have been compacted and cannot be read any more. `results` is the tracker's
      table; None is the empty result. `seen` records what was read for each index
      and `done` what became of it. */
  datatype Loop = Loop(
    log: seq<Entry>, base: int, commitIndex: int, lastApplied: int,
    store: Data, results: map<int, Option<Reply>>, pc: Pc,
    seen: seq<Option<Command>>, done: seq<Turn>)

  datatype Step =
    | Replace(log: seq<Entry>)       // an append, by the leader or from one
    | Commit(index: int)
    | Compact(index: int)
    | Pick
    | Recheck
    | Skip                           // nothing was read: nothing to write
    | Write(now: int)
    | Bump
    | Report

  function Readable(s: Loop, idx: int): Option<Command> {
    if s.base < idx <= |s.log| && idx >= 1 then Some(s.log[idx - 1].cmd) else None
  }

  ghost predicate Enabled(s: Loop, step: Step) {
    match step
    case Replace(_) => true
    case Commit(_) => true
    case Compact(i) => s.base <= i <= s.lastApplied
    case Pick => s.pc == Waiting && s.lastApplied < s.commitIndex
    case Recheck => s.pc.Picked?
    case Skip => s.pc.Cleared? && s.pc.cmd == None
    case Write(_) => s.pc.Cleared? && s.pc.cmd.Some?
    case Bump => s.pc.Wrote?
    case Report => s.pc.Bumped?
  }

  ghost function Next(s: Loop, step: Step): Loop
    requires Enabled(s, step)
  {
    match step
    case Replace(log) => s.(log := log)
    case Commit(k) => s.(commitIndex := k)
    case Compact(i) => s.(base := i)
    case Pick =>
      var cmd := Readable(s, s.lastApplied + 1);
      s.(pc := Picked(s.lastApplied + 1, cmd), seen := s.seen + [cmd])
    case Recheck =>
      if s.lastApplied >= s.pc.idx
      then s.(pc := Waiting, results := s.results[s.pc.idx := None])
      else s.(pc := Cleared(s.pc.idx, s.pc.cmd))
    case Skip =>
      s.(lastApplied := Max(s.lastApplied, s.pc.idx), pc := Waiting, results := s.results[s.pc.idx := None],
         done := s.done + [Passed])
    case Write(now) =>
      var (store, reply) := Apply(s.store, s.pc.cmd.value, now);
      s.(store := store, pc := Wrote(s.pc.idx, reply), done := s.done + [Ran(s.pc.cmd.value, now)])
    case Bump => s.(lastApplied := Max(s.lastApplied, s.pc.idx), pc := Bumped(s.pc.idx, s.pc.reply))
    case Report => s.(pc := Waiting, results := s.results[s.pc.idx := Some(s.pc.reply)])
  }

  ghost predicate IsRun(s: Loop, steps: seq<Step>)
    decreases |steps|
  {
    steps == [] || (Enabled(s, steps[0]) && IsRun(Next(s, steps[0]), steps[1..]))
  }

  ghost function After(s: Loop, steps: seq<Step>): Loop
    requires IsRun(s, steps)
    decreases |steps|
  {
    if steps == [] then s else After(Next(s, steps[0]), steps[1..])
  }

  const START := Loop([], 0, 0, 0, map[], map[], Waiting, [], [])

  // ---- the reference: one index after the other ----

  /** The store after the first `n` indexes. */
  function StoreAfter(done: seq<Turn>, n: nat): Data
    requires n <= |done|
  {
    if n == 0 then map[]
    else match done[n - 1]
      case Ran(cmd, now) => Apply(StoreAfter(done, n - 1), cmd, now).0
      case Passed => StoreAfter(done, n - 1)
  }

  /** What index i answers: the reply of its command in its place, or nothing. */
  function OutcomeOf(done: seq<Turn>, i: nat): Option<Reply>
    requires 1 <= i <= |done|
  {
    match done[i - 1]
    case Ran(cmd, now) => Some(Apply(StoreAfter(done, i - 1), cmd, now).1)
    case Passed => None
  }

  lemma {:induction false} StoreAfterStable(done: seq<Turn>, more: seq<Turn>, n: nat)
    requires done <= more && n <= |done|
    ensures StoreAfter(done, n) == StoreAfter(more, n)
    ensures n > 0 ==> OutcomeOf(done, n) == OutcomeOf(more, n)
  {
    hide Apply;
    if n > 0 { StoreAfterStable(done, more, n - 1); }
  }

  // ---- the invariant ----

  /** Indexes done with: one ahead of lastApplied between the store write and the
      index bump. */
  function Written(s: Loop): int { if s.pc.Wrote? then s.lastApplied + 1 else s.lastApplied }

  /** Indexes whose waiters have been told. */
  function Told(s: Loop): int { if s.pc.Bumped? then s.lastApplied - 1 else s.lastApplied }

  /** An index is passed over exactly when nothing was read for it, and otherwise
      runs the command that was read. */
  ghost predicate AsRead(seen: seq<Option<Command>>, done: seq<Turn>) {
    |done| <= |seen| && forall i | 0 <= i < |done| ::
      if seen[i].Some? then done[i].Ran? && done[i].cmd == seen[i].value else done[i].Passed?
  }

  ghost predicate Shape(s: Loop) {
    && 0 <= s.base <= s.lastApplied
    && |s.done| == Written(s) && AsRead(s.seen, s.done)
    && |s.seen| == (if s.pc.Picked? || s.pc.Cleared? then s.lastApplied + 1 else Written(s))
    && (s.pc.Picked? || s.pc.Cleared? ==> s.pc.idx == s.lastApplied + 1 && s.pc.cmd == s.seen[s.lastApplied])
    && (s.pc.Wrote? ==> s.pc.idx == s.lastApplied + 1)
    && (s.pc.Bumped? ==> s.pc.idx == s.lastApplied >= 1)
  }

  ghost predicate Applied(s: Loop)
    requires Shape(s)
  {
    && s.store == StoreAfter(s.done, Written(s))
    && (s.pc.Wrote? || s.pc.Bumped? ==> OutcomeOf(s.done, s.pc.idx) == Some(s.pc.reply))
    && (forall i :: i in s.results <==> 1 <= i <= Told(s))
    && (forall i | 1 <= i <= Told(s) :: s.results[i] == OutcomeOf(s.done, i))
  }

  ghost predicate Inv(s: Loop) { Shape(s) && Applied(s) }

  /** One more index done with. */
  lemma DoneGrows(s: Loop, turn: Turn)
    requires Inv(s) && (s.pc.Picked? || s.pc.Cleared?)
    requires if s.pc.cmd.Some? then turn.Ran? && turn.cmd == s.pc.cmd.value else turn.Passed?
    ensures var done := s.done + [turn];
            && AsRead(s.seen, done)
            && StoreAfter(done, s.lastApplied) == s.store
            && forall i | 1 <= i <= s.lastApplied :: s.results[i] == OutcomeOf(done, i)
  {
    hide Apply, StoreAfter, OutcomeOf;
    var done := s.done + [turn];
    StoreAfterStable(s.done, done, s.lastApplied);
    forall i | 1 <= i <= s.lastApplied ensures OutcomeOf(s.done, i) == OutcomeOf(done, i) {
      StoreAfterStable(s.done, done, i);
    }
  }

  lemma SkipKeepsInv(s: Loop)
    requires Inv(s) && Enabled(s, Skip)
    ensures Inv(Next(s, Skip))
  {
    hide Apply;
    DoneGrows(s, Passed);
  }

  lemma WriteKeepsInv(s: Loop, now: int)
    requires Inv(s) && Enabled(s, Write(now))
    ensures Inv(Next(s, Write(now)))
  {
    hide Apply;
    DoneGrows(s, Ran(s.pc.cmd.value, now));
  }

  lemma StepKeepsInv(s: Loop, step: Step)
    requires Inv(s) && Enabled(s, step)
    ensures Inv(Next(s, step))
  {
    hide Apply, StoreAfter, OutcomeOf;
    match step {
      case Skip => SkipKeepsInv(s);
      case Write(now) => WriteKeepsInv(s, now);
      case _ =>
    }
  }

  lemma {:induction false} RunKeepsInv(s: Loop, steps: seq<Step>)
    requires Inv(s) && IsRun(s, steps)
    ensures Inv(After(s, steps))
    decreases |steps|
  {
    hide Applied, Shape, Next, Enabled;
    if steps == [] {
    } else {
      StepKeepsInv(s, steps[0]);
      RunKeepsInv(Next(s, steps[0]), steps[1..]);
    }
  }

  /** In every interleaving, whatever happens to the log: each index is taken once
      and in order; the store is the fold of the commands that were read; an index
      is reported empty, and never applied, if and only if nothing was read for it,
      and otherwise reports its own command's outcome in its place. */
  lemma AppliesWhatItReads(steps: seq<Step>)
    requires IsRun(START, steps)
    ensures var s := After(START, steps);
            && 0 <= Written(s) == |s.done| && AsRead(s.seen, s.done)
            && s.store == StoreAfter(s.done, Written(s))
            && (forall i :: i in s.results <==> 1 <= i <= Told(s))
            && (forall i | 1 <= i <= Told(s) ::
                  s.results[i] == OutcomeOf(s.done, i) && (s.results[i] == None <==> s.seen[i - 1] == None))
  {
    RunKeepsInv(START, steps);
  }

  /** And nothing is read for an index if and only if the log is too short to hold
      it: what the loop takes for a compacted entry is a cut one. */
  lemma PassedOverExactlyWhenCut(steps: seq<Step>)
    requires IsRun(START, steps) && Enabled(After(START, steps), Pick)
    ensures var s := After(START, steps);
            var s1 := Next(s, Pick);
            s1.seen == s.seen + [s1.pc.cmd] && (s1.pc.cmd == None <==> |s.log| < s1.pc.idx)
  {
    RunKeepsInv(START, steps);
  }

  // ---- logs that keep what is committed ----

  /** Every new log keeps the committed entries, and the commit index stays within the
      log and does not fall. */
  ghost predicate Steady(s: Loop, step: Step) {
    match step
    case Replace(log) =>
      0 <= s.commitIndex <= |log| && s.commitIndex <= |s.log| && log[..s.commitIndex] == s.log[..s.commitIndex]
    case Commit(k) => s.commitIndex <= k <= |s.log|
    case _ => true
  }

  ghost predicate IsSteadyRun(s: Loop, steps: seq<Step>)
    decreases |steps|
  {
    steps == [] || (Enabled(s, steps[0]) && Steady(s, steps[0]) && IsSteadyRun(Next(s, steps[0]), steps[1..]))
  }

  /** The committed entries are all there, and so is everything that was read. */
  ghost predicate Kept(s: Loop) {
    && Shape(s) && s.lastApplied <= s.commitIndex <= |s.log| && |s.seen| <= s.commitIndex
    && forall i | 0 <= i < |s.seen| :: s.seen[i] == Some(s.log[i].cmd)
  }

  lemma SteadyKeeps(s: Loop, step: Step)
    requires Inv(s) && Kept(s) && Enabled(s, step) && Steady(s, step)
    ensures Kept(Next(s, step))
  {
    hide Apply, Applied;
    StepKeepsInv(s, step);
    if step.Replace? { assert forall i | 0 <= i < s.commitIndex :: step.log[i] == step.log[..s.commitIndex][i] == s.log[i]; }
  }

  lemma {:induction false} SteadyRunKeeps(s: Loop, steps: seq<Step>)
    requires Inv(s) && Kept(s) && IsSteadyRun(s, steps)
    ensures IsRun(s, steps) && Inv(After(s, steps)) && Kept(After(s, steps))
    decreases |steps|
  {
    hide Inv, Kept, Next, Enabled, Steady;
    if steps == [] {
    } else {
      SteadyKeeps(s, steps[0]);
      StepKeepsInv(s, steps[0]);
      SteadyRunKeeps(Next(s, steps[0]), steps[1..]);
    }
  }

  /** Exactly once and in order: as long as committed entries stay in the log, index i
      runs entry i of the log; the store is the fold of entries 1..lastApplied (one
      more between the store write and the index bump), every index up to lastApplied
      has been reported except the one in hand, no later index has, and the reported
      result is that entry's own outcome at its place in the log. */
  lemma AppliesOnceInOrder(steps: seq<Step>)
    requires IsSteadyRun(START, steps)
    ensures IsRun(START, steps)
    ensures var s := After(START, steps);
            && 0 <= Written(s) == |s.done| <= s.commitIndex <= |s.log|
            && (forall i | 0 <= i < |s.done| :: s.done[i].Ran? && s.done[i].cmd == s.log[i].cmd)
            && s.store == StoreAfter(s.done, Written(s))
            && (forall i :: i in s.results <==> 1 <= i <= Told(s))
            && (forall i | 1 <= i <= Told(s) :: s.results[i].Some? && s.results[i] == OutcomeOf(s.done, i))
  {
    SteadyRunKeeps(START, steps);
  }
}
