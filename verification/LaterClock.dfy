/** Replay re-evaluates CAS, Expire and Incr by the clock of the restart, not by
    the clock they ran under. Here is exactly when that rebuilds the live state. */
module LaterClock {
  import opened Basics
  import opened Commands
  import opened Decimal
  import opened Store
  import opened Expiry
  import opened Replay

  /** The state after executing each record at its own time. */
  function RunAt(d: Data, cmds: seq<Command>, times: seq<int>): Data
    requires |cmds| == |times|
  {
    if cmds == [] then d
    else
      var last := |cmds| - 1;
      Apply(RunAt(d, cmds[..last], times[..last]), cmds[last], times[last]).0
  }

  predicate Ahead(exp: int, t: int) { exp == 0 || exp > t }

  /** No deadline in the store, and none the records set, has passed by `t`. */
  ghost predicate NoDeadlineBy(d: Data, cmds: seq<Command>, t: int) {
    && (forall k | k in d :: Ahead(d[k].exp, t))
    && (forall i | 0 <= i < |cmds| && cmds[i].Expire? :: Ahead(cmds[i].deadline, t))
  }

  lemma ApplyIgnoresClock(d: Data, cmd: Command, now: int, t: int)
    requires now <= t && NoDeadlineBy(d, [cmd], t)
    ensures Apply(d, cmd, now) == Apply(d, cmd, t)
    ensures NoDeadlineBy(Apply(d, cmd, t).0, [], t)
  {
    assert cmd == [cmd][0];
  }

  /** Replay re-evaluates Incr, CAS and Expire by the clock of the restart. As
      long as no deadline has passed by then, it rebuilds exactly the state the
      operations left behind when they ran, each at its own time. */
  lemma {:induction false} ReplayByLaterClock(d: Data, cmds: seq<Command>, times: seq<int>, t: int)
    requires |cmds| == |times| && (forall i | 0 <= i < |times| :: times[i] <= t) && NoDeadlineBy(d, cmds, t)
    ensures RunAt(d, cmds, times) == ApplyAll(d, cmds, t) && NoDeadlineBy(ApplyAll(d, cmds, t), [], t)
  {
    hide Apply;
    if cmds == [] {
    } else {
      var last := |cmds| - 1;
      assert forall i | 0 <= i < last :: cmds[..last][i] == cmds[i] && times[..last][i] == times[i];
      ReplayByLaterClock(d, cmds[..last], times[..last], t);
      ApplyIgnoresClock(ApplyAll(d, cmds[..last], t), cmds[last], times[last], t);
    }
  }

  /** The condition matters: an Incr executed before a deadline and replayed
      after it starts over from 1. */
  lemma LaterReplayDiffers(key: Str)
    ensures var cmds, times := [Put(key, FormatInt(5)), Expire(key, 100), Incr(key)], [10, 20, 30];
            && Cell(RunAt(map[], cmds, times), key, 200) == Some(Item(FormatInt(6), 0))
            && Cell(ApplyAll(map[], cmds, 200), key, 200) == Some(Item(FormatInt(1), 0))
  {
    var a, b, c := Put(key, FormatInt(5)), Expire(key, 100), Incr(key);
    FormatThenParse(5);
    assert [a, b, c][..2] == [a, b] && [a, b][..1] == [a] && [a][..0] == [];
    assert [10, 20, 30][..2] == [10, 20] && [10, 20][..1] == [10] && [10][..0] == [];
    assert RunAt(map[], [a], [10]) == map[key := Item(FormatInt(5), 0)];
    assert RunAt(map[], [a, b], [10, 20]) == map[key := Item(FormatInt(5), 100)];
    assert ApplyAll(map[], [a], 200) == map[key := Item(FormatInt(5), 0)];
    assert ApplyAll(map[], [a, b], 200) == map[key := Item(FormatInt(5), 100)];
  }

  // ---- once deadlines have passed ----

  /** The log could have been written by a store that started from `d` and ran
      each operation at its own time. */
  ghost predicate LoggedAt(d: Data, cmds: seq<Command>, times: seq<int>)
    requires |cmds| == |times|
  {
    cmds == []
    || (var last := |cmds| - 1;
        LoggedAt(d, cmds[..last], times[..last])
        && LoggedFrom(RunAt(d, cmds[..last], times[..last]), cmds[last], times[last]))
  }

  /** What the store keeps under a key, dead or alive. */
  function Slot(d: Data, key: Str): Option<Item> { if key in d then Some(d[key]) else None }

  /** A logged record other than Incr takes effect whatever the clock says. */
  function SlotStep(c: Option<Item>, cmd: Command, key: Str): Option<Item> {
    match cmd
    case Put(k, v) => if k == key then Some(Item(v, 0)) else c
    case Delete(k) => if k == key then None else c
    case Clear => None
    case Incr(_) => c
    case CAS(k, _, n) => if k == key then Some(Item(n, 0)) else c
    case Expire(k, t) => if k == key && c.Some? then Some(Item(c.value.value, t)) else c
  }

  function SlotRun(c: Option<Item>, cmds: seq<Command>, key: Str): Option<Item> {
    if cmds == [] then c else SlotStep(SlotRun(c, cmds[..|cmds| - 1], key), cmds[|cmds| - 1], key)
  }

  predicate Touches(cmd: Command, key: Str) { (cmd.CAS? || cmd.Expire?) && cmd.key == key }

  /** Since the key's last reset, a CAS or an Expire ran on it while it carried a
      deadline that has passed by `t`. Replay at `t` finds it dead there. */
  predicate Forgotten(c: Option<Item>, cmds: seq<Command>, key: Str, t: int) {
    cmds != []
    && var p, cmd := cmds[..|cmds| - 1], cmds[|cmds| - 1];
       && !Resets(cmd, key)
       && (Forgotten(c, p, key, t)
           || (Touches(cmd, key) && SlotRun(c, p, key).Some? && Expired(SlotRun(c, p, key).value, t)))
  }

  lemma StepMatchesSlot(d: Data, cmd: Command, key: Str, now: int)
    requires LoggedFrom(d, cmd, now) && cmd != Incr(key)
    ensures Slot(Apply(d, cmd, now).0, key) == SlotStep(Slot(d, key), cmd, key)
  {
    hide ParseInt, FormatInt;
  }

  /** An Incr ran on the key after its last reset, or it was never reset. */
  predicate IncrSinceReset(cmds: seq<Command>, key: Str) {
    cmds != []
    && var p, cmd := cmds[..|cmds| - 1], cmds[|cmds| - 1];
       !Resets(cmd, key) && (cmd == Incr(key) || IncrSinceReset(p, key))
  }

  lemma ResetFillsSlot(d: Data, cmd: Command, key: Str, now: int, c: Option<Item>)
    requires Resets(cmd, key)
    ensures Slot(Apply(d, cmd, now).0, key) == SlotStep(c, cmd, key)
  {}

  lemma {:induction false} RunMatchesSlot(d: Data, cmds: seq<Command>, times: seq<int>, key: Str)
    requires |cmds| == |times| && LoggedAt(d, cmds, times) && !IncrSinceReset(cmds, key)
    ensures Slot(RunAt(d, cmds, times), key) == SlotRun(Slot(d, key), cmds, key)
  {
    hide Apply, SlotStep, Slot, Resets;
    if cmds == [] {
    } else {
      var last := |cmds| - 1;
      var r, c := RunAt(d, cmds[..last], times[..last]), SlotRun(Slot(d, key), cmds[..last], key);
      if Resets(cmds[last], key) {
        ResetFillsSlot(r, cmds[last], key, times[last], c);
      } else {
        RunMatchesSlot(d, cmds[..last], times[..last], key);
        StepMatchesSlot(r, cmds[last], key, times[last]);
      }
    }
  }

  /** What of a slot a reader at `t` sees. */
  function Seen(c: Option<Item>, t: int): Option<Item> { if c.Some? then Fresh(c.value, t) else None }

  /** A record that ran on `c` at `now`, run again at `t` on what is left of `c`. */
  lemma StepAgain(c: Option<Item>, cmd: Command, key: Str, now: int, t: int)
    requires now <= t && cmd != Incr(key)
    requires Touches(cmd, key) ==> c.Some? && !Expired(c.value, now) && (cmd.CAS? ==> c.value.value == cmd.old_)
    ensures Touches(cmd, key) && Expired(c.value, t) ==> CellStep(Seen(c, t), cmd, key, t) == None
    ensures !(Touches(cmd, key) && Expired(c.value, t)) ==>
              CellStep(Seen(c, t), cmd, key, t) == Seen(SlotStep(c, cmd, key), t)
  {}

  lemma NothingComesBack(cmd: Command, key: Str, t: int)
    requires !Resets(cmd, key) && cmd != Incr(key)
    ensures CellStep(None, cmd, key, t) == None
  {}

  lemma ResetForgets(c: Option<Item>, r: Option<Item>, cmd: Command, key: Str, t: int)
    requires Resets(cmd, key)
    ensures CellStep(r, cmd, key, t) == Seen(SlotStep(c, cmd, key), t)
  {}

  /** Replay at `t` sees what memory holds, or, for a forgotten key, nothing. */
  lemma {:induction false} ReplayedCell(d: Data, cmds: seq<Command>, times: seq<int>, key: Str, t: int)
    requires |cmds| == |times| && (forall i | 0 <= i < |times| :: times[i] <= t)
    requires LoggedAt(d, cmds, times) && !IncrSinceReset(cmds, key)
    ensures CellRun(Cell(d, key, t), cmds, key, t)
            == if Forgotten(Slot(d, key), cmds, key, t) then None else Seen(SlotRun(Slot(d, key), cmds, key), t)
  {
    if cmds == [] {
    } else {
      hide Apply, SlotStep, CellStep, RunAt;
      var last := |cmds| - 1;
      var p, cmd := cmds[..last], cmds[last];
      var c := SlotRun(Slot(d, key), p, key);
      if Resets(cmd, key) {
        ResetForgets(c, CellRun(Cell(d, key, t), p, key, t), cmd, key, t);
      } else {
        assert forall i | 0 <= i < last :: times[..last][i] == times[i];
        ReplayedCell(d, p, times[..last], key, t);
        RunMatchesSlot(d, p, times[..last], key);
        assert times[last] <= t;
        StepAgain(c, cmd, key, times[last], t);
        if Forgotten(Slot(d, key), p, key, t) { NothingComesBack(cmd, key, t); }
      }
    }
  }

  /** One key at a time, in any log whose records ran at their own times up to `t`: if
      no Incr ran on the key since its last reset, replay at `t` rebuilds it if and
      only if memory no longer holds it or it is not forgotten. */
  lemma KeyLaterReplayExactly(d: Data, cmds: seq<Command>, times: seq<int>, key: Str, t: int)
    requires |cmds| == |times| && (forall i | 0 <= i < |times| :: times[i] <= t)
    requires LoggedAt(d, cmds, times) && !IncrSinceReset(cmds, key)
    ensures var o, r := RunAt(d, cmds, times), ApplyAll(d, cmds, t);
            Cell(o, key, t) == Cell(r, key, t) <==> (IsLive(o, key, t) ==> !Forgotten(Slot(d, key), cmds, key, t))
  {
    hide Apply, RunAt, ApplyAll, Forgotten, SlotRun, CellRun, LoggedAt;
    RunMatchesSlot(d, cmds, times, key);
    RunMatchesCell(d, cmds, key, t);
    ReplayedCell(d, cmds, times, key, t);
  }

  /** The exact theorem, for every log whose records ran at their own times up to
      `t`, and in which no key was incremented since its last reset: replay at `t`
      rebuilds the live state if and only if no key that memory still holds is
      forgotten. */
  lemma LaterReplayExactly(d: Data, cmds: seq<Command>, times: seq<int>, t: int)
    requires |cmds| == |times| && (forall i | 0 <= i < |times| :: times[i] <= t)
    requires LoggedAt(d, cmds, times) && forall key :: !IncrSinceReset(cmds, key)
    ensures Alike(RunAt(d, cmds, times), ApplyAll(d, cmds, t), t)
            <==> forall key :: IsLive(RunAt(d, cmds, times), key, t) ==> !Forgotten(Slot(d, key), cmds, key, t)
  {
    hide Apply, RunAt, ApplyAll, Forgotten, LoggedAt, Alike, IncrSinceReset, Cell, IsLive;
    var o, r := RunAt(d, cmds, times), ApplyAll(d, cmds, t);
    AlikeByCells(o, r, t);
    forall key
      ensures Cell(o, key, t) == Cell(r, key, t) <==> (IsLive(o, key, t) ==> !Forgotten(Slot(d, key), cmds, key, t))
    {
      KeyLaterReplayExactly(d, cmds, times, key, t);
    }
  }

  /** The worst of it: a deadline renewed in time, and the key gone after a restart. */
  lemma RenewedKeyIsLost(key: Str, v: Str)
    ensures var cmds, times := [Put(key, v), Expire(key, 100), Expire(key, 1000)], [10, 20, 50];
            && LoggedAt(map[], cmds, times)
            && Cell(RunAt(map[], cmds, times), key, 200) == Some(Item(v, 1000))
            && Cell(ApplyAll(map[], cmds, 200), key, 200) == None
  {
    var a, b, c := Put(key, v), Expire(key, 100), Expire(key, 1000);
    assert [a, b, c][..2] == [a, b] && [a, b][..1] == [a] && [a][..0] == [];
    assert [10, 20, 50][..2] == [10, 20] && [10, 20][..1] == [10] && [10][..0] == [];
    assert RunAt(map[], [a], [10]) == map[key := Item(v, 0)];
    assert RunAt(map[], [a, b], [10, 20]) == map[key := Item(v, 100)];
    assert ApplyAll(map[], [a], 200) == map[key := Item(v, 0)];
    assert ApplyAll(map[], [a, b], 200) == map[key := Item(v, 100)];
    assert LoggedAt(map[], [a], [10]) && LoggedAt(map[], [a, b], [10, 20]);
  }
}
