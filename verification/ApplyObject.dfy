/** The apply loop as the object it runs on: one method per lock region, each
    proved to be the step of the same name in `ApplyLoop`, whatever the other
    goroutines did since the region before it. */
module ApplyObject {
  import opened Basics
  import opened Commands
  import opened RaftNode
  import opened Store
  import opened MemObject
  import opened ApplyLoop

  /** Channels are numbered in the order they are handed out. */
  class ApplyTracker {
    var waiters: map<int, set<nat>>
    var results: map<int, Option<Reply>>
    var awaits: seq<int>          // channel -> the index it waits for
    var closed: set<nat>

    /** Every open channel is registered under its index, and a closed channel's
        result is there to be read. */
    ghost predicate Valid()
      reads this
    {
      && (forall c | c in closed :: c < |awaits| && awaits[c] in results)
      && (forall i | i in waiters :: forall c | c in waiters[i] :: c < |awaits| && awaits[c] == i && c !in closed)
      && (forall c: nat | c < |awaits| && c !in closed :: awaits[c] in waiters && c in waiters[awaits[c]])
    }

    constructor ()
      ensures Valid() && results == map[] && awaits == [] && closed == {}
    {
      waiters, results, awaits, closed := map[], map[], [], {};
    }

    method WaitIndex(i: int) returns (ch: nat)
      requires Valid()
      modifies this`waiters, this`awaits
      ensures Valid() && ch == |old(awaits)| && awaits == old(awaits) + [i] && ch !in closed
    {
      ch := |awaits|;
      awaits := awaits + [i];
      waiters := waiters[i := (if i in waiters then waiters[i] else {}) + {ch}];
    }

    method Result(i: int) returns (r: Option<Option<Reply>>)
      requires Valid()
      ensures r.Some? <==> i in results
      ensures r.Some? ==> r.value == results[i]
      ensures forall c | c in closed && awaits[c] == i :: r.Some?
    {
      r := if i in results then Some(results[i]) else None;
    }

    /** Records the result and closes exactly the open channels for `i`. */
    method Applied(i: int, r: Option<Reply>)
      requires Valid()
      modifies this`results, this`waiters, this`closed
      ensures Valid() && results == old(results)[i := r]
      ensures forall c: nat :: c in closed <==> c in old(closed) || (c < |awaits| && awaits[c] == i)
    {
      results := results[i := r];
      if i in waiters {
        closed := closed + waiters[i];
        waiters := waiters - {i};
      }
    }
  }

  class Applier {
    const mem: MemStore
    const tracker: ApplyTracker
    var log: seq<Entry>
    var base: nat
    var commitIndex: int
    var lastApplied: int
    ghost var past: seq<Entry>      // the entries compaction dropped from `log`

    constructor ()
      ensures Valid() && fresh(mem) && fresh(tracker)
      ensures AsLoop([], [], Waiting) == START
    {
      mem := new MemStore();
      tracker := new ApplyTracker();
      log, base, commitIndex, lastApplied, past := [], 0, 0, 0, [];
    }

    ghost predicate Valid()
      reads this, tracker
    {
      |past| == base && tracker.Valid()
    }

    /** This object as a state of the step system. */
    ghost function AsLoop(seen: seq<Option<Command>>, done: seq<Turn>, pc: Pc): Loop
      reads this, mem, tracker
    {
      Loop(past + log, base, commitIndex, lastApplied, mem.data, tracker.results, pc, seen, done)
    }

    method Pick(ghost seen: seq<Option<Command>>, ghost done: seq<Turn>)
      returns (more: bool, idx: int, cmd: Option<Command>)
      requires Valid()
      ensures more <==> lastApplied < commitIndex
      ensures more ==> idx == lastApplied + 1
                       && cmd == if base < idx <= base + |log| then Some(log[idx - base - 1].cmd) else None
      ensures var s := AsLoop(seen, done, Waiting);
              more ==> Enabled(s, Step.Pick) && Next(s, Step.Pick) == AsLoop(seen + [cmd], done, Picked(idx, cmd))
    {
      if lastApplied >= commitIndex { return false, 0, None; }
      idx := lastApplied + 1;
      var off := idx - base - 1;
      cmd := if 0 <= off < |log| then Some(log[off].cmd) else None;
      assert 0 <= off < |log| ==> (past + log)[idx - 1] == log[off];
      return true, idx, cmd;
    }

    method Recheck(idx: int, cmd: Option<Command>, ghost seen: seq<Option<Command>>, ghost done: seq<Turn>)
      returns (go: bool)
      requires Valid()
      modifies tracker
      ensures Valid() && tracker.awaits == old(tracker.awaits)
      ensures go <==> lastApplied < idx
      ensures tracker.results == if go then old(tracker.results) else old(tracker.results)[idx := None]
      ensures Next(old(AsLoop(seen, done, Picked(idx, cmd))), Step.Recheck)
              == AsLoop(seen, done, if go then Cleared(idx, cmd) else Waiting)
    {
      go := lastApplied < idx;
      if !go { tracker.Applied(idx, None); }
    }

    method Skip(idx: int, ghost seen: seq<Option<Command>>, ghost done: seq<Turn>)
      requires Valid()
      modifies this`lastApplied, tracker
      ensures Valid() && tracker.awaits == old(tracker.awaits)
      ensures lastApplied == Max(old(lastApplied), idx) && tracker.results == old(tracker.results)[idx := None]
      ensures Next(old(AsLoop(seen, done, Cleared(idx, None))), Step.Skip) == AsLoop(seen, done + [Passed], Waiting)
    {
      if idx > lastApplied { lastApplied := idx; }
      tracker.Applied(idx, None);
    }

    method Write(idx: int, cmd: Command, now: int, ghost seen: seq<Option<Command>>, ghost done: seq<Turn>)
      returns (reply: Reply)
      requires Valid()
      modifies mem
      ensures Valid()
      ensures (mem.data, reply) == Apply(old(mem.data), cmd, now)
      ensures Next(old(AsLoop(seen, done, Cleared(idx, Some(cmd)))), Step.Write(now))
              == AsLoop(seen, done + [Ran(cmd, now)], Wrote(idx, reply))
    {
      hide Apply;
      reply := ApplyTo(mem, cmd, now);
    }

    method Bump(idx: int, reply: Reply, ghost seen: seq<Option<Command>>, ghost done: seq<Turn>)
      requires Valid()
      modifies this`lastApplied
      ensures Valid()
      ensures lastApplied == Max(old(lastApplied), idx)
      ensures Next(old(AsLoop(seen, done, Wrote(idx, reply))), Step.Bump) == AsLoop(seen, done, Bumped(idx, reply))
    {
      if idx > lastApplied { lastApplied := idx; }
    }

    method Report(idx: int, reply: Reply, ghost seen: seq<Option<Command>>, ghost done: seq<Turn>)
      requires Valid()
      modifies tracker
      ensures Valid() && tracker.awaits == old(tracker.awaits)
      ensures tracker.results == old(tracker.results)[idx := Some(reply)]
      ensures Next(old(AsLoop(seen, done, Bumped(idx, reply))), Step.Report) == AsLoop(seen, done, Waiting)
      ensures forall c: nat ::
                c in tracker.closed <==> c in old(tracker.closed) || (c < |tracker.awaits| && tracker.awaits[c] == idx)
    {
      tracker.Applied(idx, Some(reply));
    }
  }

  /** What one undisturbed turn makes of the next index. */
  ghost function TurnOf(s: Loop, now: int): Turn {
    match Readable(s, s.lastApplied + 1)
    case Some(cmd) => Ran(cmd, now)
    case None => Passed
  }

  /** One turn of the loop, nothing in between: the next committed index is applied
      and reported if its entry can be read, and otherwise passed over. It is never
      already applied. */
  method RunTurn(a: Applier, now: int, ghost seen: seq<Option<Command>>, ghost done: seq<Turn>) returns (more: bool)
    requires a.Valid() && Inv(a.AsLoop(seen, done, Waiting))
    modifies a`lastApplied, a.mem, a.tracker
    ensures a.Valid() && more == (old(a.lastApplied) < a.commitIndex)
    ensures a.lastApplied == if more then old(a.lastApplied) + 1 else old(a.lastApplied)
    ensures var s := old(a.AsLoop(seen, done, Waiting));
            if more then Inv(a.AsLoop(seen + [Readable(s, s.lastApplied + 1)], done + [TurnOf(s, now)], Waiting))
            else Inv(a.AsLoop(seen, done, Waiting))
  {
    hide Applied, AsRead, Apply;
    ghost var s := a.AsLoop(seen, done, Waiting);
    var idx: int, cmd: Option<Command>;
    more, idx, cmd := a.Pick(seen, done);
    if !more { return; }
    StepKeepsInv(s, Step.Pick);
    s := a.AsLoop(seen + [cmd], done, Picked(idx, cmd));
    StepKeepsInv(s, Step.Recheck);
    var go := a.Recheck(idx, cmd, seen + [cmd], done);
    s := a.AsLoop(seen + [cmd], done, Cleared(idx, cmd));
    if cmd.None? {
      StepKeepsInv(s, Step.Skip);
      a.Skip(idx, seen + [cmd], done);
    } else {
      StepKeepsInv(s, Step.Write(now));
      var reply := a.Write(idx, cmd.value, now, seen + [cmd], done);
      ghost var done1 := done + [Ran(cmd.value, now)];
      s := a.AsLoop(seen + [cmd], done1, Wrote(idx, reply));
      StepKeepsInv(s, Step.Bump);
      a.Bump(idx, reply, seen + [cmd], done1);
      s := a.AsLoop(seen + [cmd], done1, Bumped(idx, reply));
      StepKeepsInv(s, Step.Report);
      a.Report(idx, reply, seen + [cmd], done1);
    }
  }

  /** Left alone, the loop drains commitIndex: every index it reaches runs its entry
      if the log holds it, at the clock of this drain, and is passed over otherwise. */
  method Drain(a: Applier, now: int, ghost seen: seq<Option<Command>>, ghost done: seq<Turn>)
    returns (ghost sight: seq<Option<Command>>, ghost after: seq<Turn>)
    requires a.Valid() && Inv(a.AsLoop(seen, done, Waiting))
    modifies a`lastApplied, a.mem, a.tracker
    ensures a.Valid() && a.lastApplied == Max(old(a.lastApplied), a.commitIndex)
    ensures Inv(a.AsLoop(sight, after, Waiting)) && done <= after && |after| == a.lastApplied
    ensures var log := a.past + a.log;
            forall i | |done| <= i < |after| :: after[i] == if i < |log| then Ran(log[i].cmd, now) else Passed
    ensures a.mem.data == StoreAfter(after, |after|)
    ensures forall i | 1 <= i <= |after| :: i in a.tracker.results && a.tracker.results[i] == OutcomeOf(after, i)
  {
    hide Apply, AsRead, StoreAfter, OutcomeOf;
    sight, after := seen, done;
    var more := true;
    while more
      invariant a.Valid() && Inv(a.AsLoop(sight, after, Waiting)) && done <= after && old(a.lastApplied) <= a.lastApplied
      invariant forall i | |done| <= i < |after| ::
                  after[i] == if i < |a.past + a.log| then Ran((a.past + a.log)[i].cmd, now) else Passed
      invariant a.lastApplied <= Max(old(a.lastApplied), a.commitIndex)
      invariant !more ==> a.lastApplied >= a.commitIndex
      decreases more, a.commitIndex - a.lastApplied
    {
      ghost var s := a.AsLoop(sight, after, Waiting);
      more := RunTurn(a, now, sight, after);
      if more {
        sight, after := sight + [Readable(s, s.lastApplied + 1)], after + [TurnOf(s, now)];
      }
    }
  }
}
