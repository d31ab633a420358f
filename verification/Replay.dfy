/** Replaying a log onto a store, and exactly when replaying it a second time
    changes nothing. That matters because compaction saves the snapshot first
    and empties the log afterwards: a crash in between leaves both. */
module Replay {
  import opened Basics
  import opened Commands
  import opened Decimal
  import opened Store
  import opened Expiry

  /** The state after applying the records in order, the clock pinned at `now`. */
  function ApplyAll(d: Data, cmds: seq<Command>, now: int): Data {
    if cmds == [] then d
    else Apply(ApplyAll(d, cmds[..|cmds| - 1], now), cmds[|cmds| - 1], now).0
  }

  lemma {:induction false} ApplyAllAppend(d: Data, a: seq<Command>, b: seq<Command>, now: int)
    ensures ApplyAll(d, a + b, now) == ApplyAll(ApplyAll(d, a, now), b, now)
  {
    hide Apply;
    if b == [] {
      assert a + b == a;
    } else {
      var last := |b| - 1;
      assert (a + b)[..|a + b| - 1] == a + b[..last];
      ApplyAllAppend(d, a, b[..last], now);
    }
  }

  /** CAS is logged only on a match and Expire only on a live key. */
  ghost predicate LoggedFrom(d: Data, cmd: Command, now: int) {
    match cmd
    case CAS(k, o, _) => IsLive(d, k, now) && d[k].value == o
    case Expire(k, _) => IsLive(d, k, now)
    case _ => true
  }

  /** The log could have been written by a store that started from `d`. */
  ghost predicate Logged(d: Data, cmds: seq<Command>, now: int) {
    cmds == [] || (Logged(d, cmds[..|cmds| - 1], now)
                   && LoggedFrom(ApplyAll(d, cmds[..|cmds| - 1], now), cmds[|cmds| - 1], now))
  }

  predicate HasIncr(cmds: seq<Command>, key: Str) {
    exists i :: 0 <= i < |cmds| && cmds[i] == Incr(key)
  }

  // ---- one key at a time ----

  /** What a reader sees under a key: its live item, if any. */
  ghost function Cell(d: Data, key: Str, now: int): Option<Item> {
    if IsLive(d, key, now) then Some(d[key]) else None
  }

  function Fresh(e: Item, now: int): Option<Item> { if Expired(e, now) then None else Some(e) }

  function Bump(c: Option<Item>): Option<Item> {
    if c == None then Some(Item(FormatInt(1), 0))
    else match ParseInt(c.value.value)
      case None => c
      case Some(v) => if v == MAX_INT64 then c else Some(Item(FormatInt(v + 1), 0))
  }

  /** The effect of a record on one key's cell. */
  function CellStep(c: Option<Item>, cmd: Command, key: Str, now: int): Option<Item> {
    match cmd
    case Put(k, v) => if k == key then Some(Item(v, 0)) else c
    case Delete(k) => if k == key then None else c
    case Clear => None
    case Incr(k) => if k == key then Bump(c) else c
    case CAS(k, o, n) => if k == key && c.Some? && c.value.value == o then Some(Item(n, 0)) else c
    case Expire(k, t) => if k == key && c.Some? then Fresh(Item(c.value.value, t), now) else c
  }

  function CellRun(c: Option<Item>, cmds: seq<Command>, key: Str, now: int): Option<Item> {
    if cmds == [] then c
    else CellStep(CellRun(c, cmds[..|cmds| - 1], key, now), cmds[|cmds| - 1], key, now)
  }

  lemma StepMatchesCell(d: Data, cmd: Command, key: Str, now: int)
    ensures Cell(Apply(d, cmd, now).0, key, now) == CellStep(Cell(d, key, now), cmd, key, now)
  {
    hide ParseInt, FormatInt;
  }

  lemma {:induction false} RunMatchesCell(d: Data, cmds: seq<Command>, key: Str, now: int)
    ensures Cell(ApplyAll(d, cmds, now), key, now) == CellRun(Cell(d, key, now), cmds, key, now)
  {
    hide Apply, CellStep, Cell;
    if cmds == [] {
    } else {
      var last := |cmds| - 1;
      RunMatchesCell(d, cmds[..last], key, now);
      StepMatchesCell(ApplyAll(d, cmds[..last], now), cmds[last], key, now);
    }
  }

  lemma AlikeByCells(d: Data, r: Data, now: int)
    ensures Alike(d, r, now) <==> forall k :: Cell(d, k, now) == Cell(r, k, now)
  {
    AlikePointwise(d, r, now);
    if forall k :: Cell(d, k, now) == Cell(r, k, now) {
      forall k ensures (IsLive(d, k, now) <==> IsLive(r, k, now)) && (IsLive(d, k, now) ==> d[k] == r[k]) {
        assert Cell(d, k, now) == Cell(r, k, now);
      }
    }
  }

  ghost predicate CellLogged(c: Option<Item>, cmd: Command, key: Str) {
    match cmd
    case CAS(k, o, _) => k == key ==> c.Some? && c.value.value == o
    case Expire(k, _) => k == key ==> c.Some?
    case _ => true
  }

  ghost predicate RunLogged(c: Option<Item>, cmds: seq<Command>, key: Str, now: int) {
    cmds == [] || (RunLogged(c, cmds[..|cmds| - 1], key, now)
                   && CellLogged(CellRun(c, cmds[..|cmds| - 1], key, now), cmds[|cmds| - 1], key))
  }

  lemma {:induction false} LoggedPerKey(d: Data, cmds: seq<Command>, key: Str, now: int)
    requires Logged(d, cmds, now)
    ensures RunLogged(Cell(d, key, now), cmds, key, now)
  {
    hide Apply, CellStep;
    if cmds == [] {
    } else {
      var last := |cmds| - 1;
      LoggedPerKey(d, cmds[..last], key, now);
      RunMatchesCell(d, cmds[..last], key, now);
    }
  }

  // ---- what a log says about a key, read off the records ----

  predicate Resets(cmd: Command, key: Str) {
    cmd == Clear || cmd == Delete(key) || (cmd.Put? && cmd.key == key)
  }

  predicate HasReset(cmds: seq<Command>, key: Str) {
    exists i :: 0 <= i < |cmds| && Resets(cmds[i], key)
  }

  /** Some CAS on the key expects `v`. */
  predicate HasCasFrom(cmds: seq<Command>, key: Str, v: Str) {
    exists i :: 0 <= i < |cmds| && cmds[i].CAS? && cmds[i].key == key && cmds[i].old_ == v
  }

  /** The deadline of the last Expire on the key. */
  function LastDeadline(cmds: seq<Command>, key: Str): Option<int> {
    if cmds == [] then None
    else
      var c := cmds[|cmds| - 1];
      if c.Expire? && c.key == key then Some(c.deadline) else LastDeadline(cmds[..|cmds| - 1], key)
  }

  /** The new value of the last CAS on the key, if no Expire on it follows. */
  function FinalSwap(cmds: seq<Command>, key: Str): Option<Str> {
    if cmds == [] then None
    else
      var c := cmds[|cmds| - 1];
      if c.CAS? && c.key == key then Some(c.new_)
      else if c.Expire? && c.key == key then None
      else FinalSwap(cmds[..|cmds| - 1], key)
  }

  /** The records leave a key at risk when it is never reset, its last change is
      a swap to a value no swap starts from, and some earlier Expire gave it a
      deadline. */
  predicate AtRisk(cmds: seq<Command>, key: Str) {
    && !HasReset(cmds, key)
    && FinalSwap(cmds, key).Some? && !HasCasFrom(cmds, key, FinalSwap(cmds, key).value)
    && LastDeadline(cmds, key).Some? && LastDeadline(cmds, key).value != 0
  }

  lemma LastRecord(cmds: seq<Command>, key: Str, v: Str)
    requires cmds != []
    ensures var p, c := cmds[..|cmds| - 1], cmds[|cmds| - 1];
            && (HasReset(cmds, key) <==> HasReset(p, key) || Resets(c, key))
            && (HasCasFrom(cmds, key, v) <==> HasCasFrom(p, key, v) || (c.CAS? && c.key == key && c.old_ == v))
            && (HasIncr(cmds, key) <==> HasIncr(p, key) || c == Incr(key))
  {
    var p, c := cmds[..|cmds| - 1], cmds[|cmds| - 1];
    assert forall i | 0 <= i < |p| :: p[i] == cmds[i];
    if HasReset(p, key) { var i :| 0 <= i < |p| && Resets(p[i], key); assert Resets(cmds[i], key); }
    if HasReset(cmds, key) && !Resets(c, key) { var i :| 0 <= i < |cmds| && Resets(cmds[i], key); assert Resets(p[i], key); }
    if HasCasFrom(p, key, v) {
      var i :| 0 <= i < |p| && p[i].CAS? && p[i].key == key && p[i].old_ == v;
      assert cmds[i] == p[i];
    }
    if HasCasFrom(cmds, key, v) {
      var i :| 0 <= i < |cmds| && cmds[i].CAS? && cmds[i].key == key && cmds[i].old_ == v;
      if i < |p| { assert p[i] == cmds[i]; }
    }
  }

  // ---- the second run, key by key ----

  /** A second run that has not merged with the first: only deadlines drift. */
  ghost predicate Drifts(b: Option<Item>, cmds: seq<Command>, key: Str, r: Option<Item>) {
    match b
    case None => r == None
    case Some(e) =>
      && !HasCasFrom(cmds, key, e.value)
      && r == Some(Item(e.value, match LastDeadline(cmds, key) case Some(t) => t case None => e.exp))
  }

  /** Trajectories merge: run the log from the state it was written from and
      from any other. Either both have come together, and stay together, or the
      second has seen no reset and no matching swap. */
  lemma {:induction false} MergedOrDrifting(a: Option<Item>, b: Option<Item>, cmds: seq<Command>, key: Str, now: int)
    requires RunLogged(a, cmds, key, now) && !HasIncr(cmds, key)
    ensures var o, r := CellRun(a, cmds, key, now), CellRun(b, cmds, key, now);
            r == o || (!HasReset(cmds, key) && Drifts(b, cmds, key, r))
  {
    if cmds == [] {
    } else {
      var p := cmds[..|cmds| - 1];
      MergedOrDrifting(a, b, p, key, now);
      LastRecord(cmds, key, if b.Some? then b.value.value else []);
    }
  }

  /** Without a reset, a dead key stays dead. */
  lemma {:induction false} DeadStaysDead(a: Option<Item>, cmds: seq<Command>, key: Str, now: int, i: nat)
    requires i <= |cmds| && !HasReset(cmds, key) && !HasIncr(cmds, key) && CellRun(a, cmds[..i], key, now) == None
    ensures CellRun(a, cmds, key, now) == None
    decreases |cmds| - i
  {
    if i < |cmds| {
      assert cmds[..i + 1][..i] == cmds[..i];
      assert !Resets(cmds[i], key);
      DeadStaysDead(a, cmds, key, now, i + 1);
    } else {
      assert cmds[..i] == cmds;
    }
  }

  /** If nothing resets, matches or kills the key, the run only drifts. */
  lemma {:induction false} DriftsExactly(e: Item, cmds: seq<Command>, key: Str, now: int)
    requires !HasReset(cmds, key) && !HasIncr(cmds, key) && !HasCasFrom(cmds, key, e.value)
    requires forall i | 0 <= i < |cmds| && cmds[i].Expire? && cmds[i].key == key ::
               !Expired(Item(e.value, cmds[i].deadline), now)
    ensures Drifts(Some(e), cmds, key, CellRun(Some(e), cmds, key, now))
  {
    if cmds == [] {
    } else {
      var p := cmds[..|cmds| - 1];
      LastRecord(cmds, key, e.value);
      assert forall i | 0 <= i < |p| :: p[i] == cmds[i];
      DriftsExactly(e, p, key, now);
    }
  }

  /** What the last change to a key says about its final cell. */
  lemma {:induction false} FinalCell(a: Option<Item>, cmds: seq<Command>, key: Str, now: int)
    requires RunLogged(a, cmds, key, now) && !HasReset(cmds, key) && !HasIncr(cmds, key)
    ensures var o := CellRun(a, cmds, key, now);
            && (FinalSwap(cmds, key).Some? ==> o == Some(Item(FinalSwap(cmds, key).value, 0)))
            && (FinalSwap(cmds, key) == None && LastDeadline(cmds, key).Some? && o.Some? ==>
                  o.value.exp == LastDeadline(cmds, key).value)
  {
    if cmds == [] {
    } else {
      LastRecord(cmds, key, []);
      FinalCell(a, cmds[..|cmds| - 1], key, now);
    }
  }

  lemma {:induction false} RunLoggedPrefix(a: Option<Item>, cmds: seq<Command>, key: Str, now: int, n: nat)
    requires RunLogged(a, cmds, key, now) && n <= |cmds|
    ensures RunLogged(a, cmds[..n], key, now)
    decreases |cmds|
  {
    if n < |cmds| {
      var p := cmds[..|cmds| - 1];
      RunLoggedPrefix(a, p, key, now, n);
      assert p[..n] == cmds[..n];
    } else {
      assert cmds[..n] == cmds;
    }
  }

  lemma {:induction false} DeadlinesStillAhead(a: Option<Item>, cmds: seq<Command>, key: Str, now: int, i: nat)
    requires RunLogged(a, cmds, key, now) && !HasReset(cmds, key) && !HasIncr(cmds, key)
    requires CellRun(a, cmds, key, now).Some?
    requires i < |cmds| && cmds[i].Expire? && cmds[i].key == key
    ensures forall v :: !Expired(Item(v, cmds[i].deadline), now)
  {
    RunLoggedPrefix(a, cmds, key, now, i + 1);
    var p := cmds[..i + 1];
    assert p[..i] == cmds[..i] && p[i] == cmds[i];
    if CellRun(a, p, key, now) == None { DeadStaysDead(a, cmds, key, now, i + 1); }
  }

  /** Once a key has been reset, nothing before the reset matters to it. */
  lemma {:induction false} ResetKeyIsSafe(a: Option<Item>, b: Option<Item>, cmds: seq<Command>, key: Str, now: int)
    requires HasReset(cmds, key)
    ensures CellRun(a, cmds, key, now) == CellRun(b, cmds, key, now)
  {
    if cmds == [] {
    } else {
      LastRecord(cmds, key, []);
      if !Resets(cmds[|cmds| - 1], key) { ResetKeyIsSafe(a, b, cmds[..|cmds| - 1], key, now); }
    }
  }

  /** A key is unchanged by the second run exactly when it is not at risk, unless
      it is incremented and never reset. */
  lemma KeyIdempotentExactly(a: Option<Item>, cmds: seq<Command>, key: Str, now: int)
    requires RunLogged(a, cmds, key, now) && (HasIncr(cmds, key) ==> HasReset(cmds, key))
    ensures var o := CellRun(a, cmds, key, now); CellRun(o, cmds, key, now) == o <==> !AtRisk(cmds, key)
  {
    hide CellRun, RunLogged;
    var o := CellRun(a, cmds, key, now);
    if HasReset(cmds, key) {
      ResetKeyIsSafe(a, o, cmds, key, now);
      return;
    }
    MergedOrDrifting(a, o, cmds, key, now);
    if !HasReset(cmds, key) { FinalCell(a, cmds, key, now); }
    if AtRisk(cmds, key) {
      forall i | 0 <= i < |cmds| && cmds[i].Expire? && cmds[i].key == key
        ensures !Expired(Item(o.value.value, cmds[i].deadline), now)
      {
        DeadlinesStillAhead(a, cmds, key, now, i);
      }
      DriftsExactly(o.value, cmds, key, now);
    }
  }

  /** Replaying a log over the very state it produced. */
  ghost predicate SecondReplayHarmless(d: Data, cmds: seq<Command>, now: int) {
    var s := ApplyAll(d, cmds, now);
    Alike(ApplyAll(s, cmds, now), s, now)
  }

  /** Every key that is incremented is also reset. */
  ghost predicate IncrsAreReset(cmds: seq<Command>) {
    forall key :: HasIncr(cmds, key) ==> HasReset(cmds, key)
  }

  /** For every log a store could have written, in which every incremented key is
      also reset: replaying it over the state it produced leaves the live state
      unchanged if and only if no key is at risk. */
  lemma SecondReplayHarmlessExactly(d: Data, cmds: seq<Command>, now: int)
    requires IncrsAreReset(cmds) && Logged(d, cmds, now)
    ensures SecondReplayHarmless(d, cmds, now) <==> forall key :: !AtRisk(cmds, key)
  {
    hide ApplyAll, CellRun, AtRisk, Cell, HasIncr, HasReset, Logged, RunLogged, Alike;
    var s := ApplyAll(d, cmds, now);
    var t := ApplyAll(s, cmds, now);
    AlikeByCells(t, s, now);
    forall key ensures Cell(t, key, now) == Cell(s, key, now) <==> !AtRisk(cmds, key) {
      LoggedPerKey(d, cmds, key, now);
      RunMatchesCell(d, cmds, key, now);
      RunMatchesCell(s, cmds, key, now);
      KeyIdempotentExactly(Cell(d, key, now), cmds, key, now);
    }
  }

  lemma {:induction false} SwapIndex(cmds: seq<Command>, key: Str) returns (i: nat)
    requires FinalSwap(cmds, key).Some?
    ensures i < |cmds| && cmds[i].CAS? && cmds[i].key == key
  {
    var c := cmds[|cmds| - 1];
    if c.CAS? && c.key == key { i := |cmds| - 1; } else { i := SwapIndex(cmds[..|cmds| - 1], key); }
  }

  lemma {:induction false} DeadlineIndex(cmds: seq<Command>, key: Str) returns (i: nat)
    requires LastDeadline(cmds, key).Some?
    ensures i < |cmds| && cmds[i].Expire? && cmds[i].key == key
  {
    var c := cmds[|cmds| - 1];
    if c.Expire? && c.key == key { i := |cmds| - 1; } else { i := DeadlineIndex(cmds[..|cmds| - 1], key); }
  }

  /** In particular, logs in which no key has both Expire and CAS records. */
  lemma NoMixNoRisk(cmds: seq<Command>)
    requires forall i, j | 0 <= i < |cmds| && 0 <= j < |cmds| && cmds[i].Expire? && cmds[j].CAS? :: cmds[i].key != cmds[j].key
    ensures forall key :: !AtRisk(cmds, key)
  {
    forall key ensures !AtRisk(cmds, key) {
      if AtRisk(cmds, key) {
        var i := SwapIndex(cmds, key);
        var j := DeadlineIndex(cmds, key);
      }
    }
  }

  lemma ApplyOne(d: Data, cmd: Command, now: int)
    ensures ApplyAll(d, [cmd], now) == Apply(d, cmd, now).0
    ensures Logged(d, [cmd], now) <==> LoggedFrom(d, cmd, now)
  {
    hide Apply;
    assert [cmd][..|[cmd]| - 1] == [];
  }

  /** An Incr without a reset is excluded for cause: one record, replayed twice,
      counts twice. */
  lemma IncrReplaysTwice(key: Str, now: int)
    ensures Logged(map[], [Incr(key)], now) && !SecondReplayHarmless(map[], [Incr(key)], now)
  {
    var s := ApplyAll(map[], [Incr(key)], now);
    ApplyOne(map[], Incr(key), now);
    FormatThenParse(1);
    FormatThenParse(2);
    var t := ApplyAll(s, [Incr(key)], now);
    ApplyOne(s, Incr(key), now);
    AlikeByCells(t, s, now);
    assert Cell(t, key, now) != Cell(s, key, now);
  }
}
