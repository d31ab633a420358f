/** The durable store one request at a time: write-ahead log, memory, snapshot;
    and what reopening finds after a crash. */
module Disk {
  import opened Basics
  import opened Commands
  import opened Decimal
  import opened Store
  import opened Expiry
  import opened Replay
  import opened LaterClock
  import opened Codec

  /** `wal` lists the records in the log file since the snapshot was saved. */
  datatype Disk = Disk(mem: Data, snap: Data, wal: seq<Command>)

  datatype Request = Request(cmd: Command, now: int)

  /** Write-ahead: log the record, then change memory. CAS is logged only when
      it will swap, Expire only when the key is live. */
  function ExecOne(s: Disk, r: Request): (Disk, Reply) {
    match r.cmd
    case CAS(k, o, n) =>
      if !IsLive(s.mem, k, r.now) then (s.(mem := Purge(s.mem, k, r.now)), Failed(NotFound))
      else if s.mem[k].value != o then (s, Swapped(false))
      else (s.(mem := s.mem[k := Item(n, 0)], wal := s.wal + [r.cmd]), Swapped(true))
    case Expire(k, t) =>
      if !IsLive(s.mem, k, r.now) then (s.(mem := Purge(s.mem, k, r.now)), Failed(NotFound))
      else (s.(mem := s.mem[k := Item(s.mem[k].value, t)], wal := s.wal + [r.cmd]), Done)
    case _ =>
      var (mem, reply) := Apply(s.mem, r.cmd, r.now);
      (s.(mem := mem, wal := s.wal + [r.cmd]), reply)
  }

  function ExecAll(s: Disk, reqs: seq<Request>): (Disk, seq<Reply>) {
    if reqs == [] then (s, [])
    else
      var (s1, replies) := ExecAll(s, reqs[..|reqs| - 1]);
      var (s2, reply) := ExecOne(s1, reqs[|reqs| - 1]);
      (s2, replies + [reply])
  }

  lemma {:induction false} ExecAllAppend(s: Disk, a: seq<Request>, b: seq<Request>)
    ensures var (s1, r1) := ExecAll(s, a);
            var (s2, r2) := ExecAll(s1, b);
            ExecAll(s, a + b) == (s2, r1 + r2)
  {
    hide ExecOne;
    if b == [] {
      assert a + b == a && ExecAll(s, a).1 + [] == ExecAll(s, a).1;
    } else {
      var last := |b| - 1;
      assert (a + b)[..|a + b| - 1] == a + b[..last] && (a + b)[|a + b| - 1] == b[last];
      ExecAllAppend(s, a, b[..last]);
      var (s1, r1) := ExecAll(s, a);
      var (s2, r2) := ExecAll(s1, b[..last]);
      var (s3, reply) := ExecOne(s2, b[last]);
      assert r1 + r2 + [reply] == r1 + (r2 + [reply]);
    }
  }

  /** The durable store answers as the plain engine would, and its memory is the
      plain engine's as far as any reader can tell. */
  lemma ExecOneMatchesEngine(s: Disk, r: Request)
    ensures ExecOne(s, r).1 == Apply(s.mem, r.cmd, r.now).1
    ensures Alike(ExecOne(s, r).0.mem, Apply(s.mem, r.cmd, r.now).0, r.now)
  {
    AlikePointwise(ExecOne(s, r).0.mem, Apply(s.mem, r.cmd, r.now).0, r.now);
  }

  // ---- memory is always the snapshot plus the replayed log ----

  lemma ApplyRespectsAlike(d: Data, r: Data, cmd: Command, now: int)
    requires Alike(d, r, now)
    ensures Alike(Apply(d, cmd, now).0, Apply(r, cmd, now).0, now)
  {
    hide Apply, IdealApply;
    ApplyAlike(d, r, cmd, now);
    ApplyAlike(r, r, cmd, now);
  }

  lemma {:induction false} ReplayRespectsAlike(d: Data, r: Data, cmds: seq<Command>, now: int)
    requires Alike(d, r, now)
    ensures Alike(ApplyAll(d, cmds, now), ApplyAll(r, cmds, now), now)
  {
    hide Apply, Alike;
    if cmds == [] {
    } else {
      var last := |cmds| - 1;
      ReplayRespectsAlike(d, r, cmds[..last], now);
      ApplyRespectsAlike(ApplyAll(d, cmds[..last], now), ApplyAll(r, cmds[..last], now), cmds[last], now);
    }
  }

  /** What the store keeps, by a clock pinned at `now`: replaying the log over
      the snapshot gives memory's live state, and the log holds only records
      replay can read. */
  ghost predicate Sound(s: Disk, now: int) {
    Alike(s.mem, ApplyAll(s.snap, s.wal, now), now) && AllFit(s.wal)
  }

  lemma LogOneMore(snap: Data, wal: seq<Command>, cmd: Command, now: int)
    ensures ApplyAll(snap, wal + [cmd], now) == Apply(ApplyAll(snap, wal, now), cmd, now).0
    ensures Logged(snap, wal + [cmd], now) <==> Logged(snap, wal, now) && LoggedFrom(ApplyAll(snap, wal, now), cmd, now)
  {
    hide Apply, LoggedFrom;
    assert (wal + [cmd])[..|wal + [cmd]| - 1] == wal;
  }

  lemma LoggedRespectsAlike(d: Data, r: Data, cmd: Command, now: int)
    requires Alike(d, r, now)
    ensures LoggedFrom(d, cmd, now) <==> LoggedFrom(r, cmd, now)
  {
    AlikePointwise(d, r, now);
  }

  lemma ExecLogsOnlySuccess(s: Disk, r: Request)
    ensures var s1 := ExecOne(s, r).0;
            && s1.snap == s.snap
            && ((s1.wal == s.wal && Alike(s1.mem, s.mem, r.now))
                || (s1.wal == s.wal + [r.cmd] && LoggedFrom(s.mem, r.cmd, r.now)
                    && Alike(s1.mem, Apply(s.mem, r.cmd, r.now).0, r.now)))
  {
    ExecOneMatchesEngine(s, r);
    AlikePointwise(ExecOne(s, r).0.mem, s.mem, r.now);
  }

  lemma AlikeTransitive(a: Data, b: Data, c: Data, now: int)
    requires Alike(a, b, now) && Alike(b, c, now)
    ensures Alike(a, c, now)
  {}

  lemma ExecKeepsSound(s: Disk, r: Request)
    requires Sound(s, r.now) && Fits(r.cmd)
    ensures Sound(ExecOne(s, r).0, r.now)
    ensures Logged(s.snap, s.wal, r.now) ==> Logged(ExecOne(s, r).0.snap, ExecOne(s, r).0.wal, r.now)
  {
    hide ExecOne, Apply, Alike, LoggedFrom, Fits, ApplyAll, Logged;
    var s1, d := ExecOne(s, r).0, ApplyAll(s.snap, s.wal, r.now);
    ExecLogsOnlySuccess(s, r);
    LogOneMore(s.snap, s.wal, r.cmd, r.now);
    if s1.wal == s.wal {
      AlikeTransitive(s1.mem, s.mem, d, r.now);
    } else {
      LoggedRespectsAlike(s.mem, d, r.cmd, r.now);
      ApplyRespectsAlike(s.mem, d, r.cmd, r.now);
      AlikeTransitive(s1.mem, Apply(s.mem, r.cmd, r.now).0, Apply(d, r.cmd, r.now).0, r.now);
    }
  }

  lemma AlikeSymmetric(a: Data, b: Data, now: int)
    requires Alike(a, b, now)
    ensures Alike(b, a, now)
  {}

  lemma AlikeBothWays(a: Data, a1: Data, b: Data, b1: Data, now: int)
    requires Alike(a, a1, now) && Alike(b, b1, now)
    ensures Alike(a, b, now) <==> Alike(a1, b1, now)
  {}

  /** compactLocked: save memory as the snapshot, then empty the log. */
  function Compact(s: Disk): Disk { Disk(s.mem, s.mem, []) }

  lemma CompactKeepsSound(s: Disk, now: int)
    ensures Sound(Compact(s), now) && Logged(Compact(s).snap, Compact(s).wal, now)
  {}

  /** Purges of dead entries, lazy or active, on memory alone. */
  lemma PurgeKeepsSound(s: Disk, key: Str, now: int)
    requires Sound(s, now)
    ensures Sound(s.(mem := Purge(s.mem, key, now)), now)
    ensures Sound(s.(mem := Live(s.mem, now)), now)
  {
    PurgesKeepLive(s.mem, key, now);
  }

  // ---- reopening after a crash ----

  /** openDiskStore: load the snapshot, replay the log, refuse a torn one. */
  function Reopen(snap: Data, bytes: Str, now: int): Option<Data> {
    var l := Decode(bytes);
    if l.rest != [] then None else Some(ApplyAll(snap, l.cmds, now))
  }

  /** A store reopened over what a crash left on disk. */
  function Restarted(snap: Data, bytes: Str, now: int): Option<Disk> {
    match Reopen(snap, bytes, now)
    case None => None
    case Some(mem) => Some(Disk(mem, snap, Decode(bytes).cmds))
  }

  /** A crash while `batch` was being appended: `n` of its bytes reached the
      file. Reopening is refused exactly when the cut tears a record; otherwise
      it rebuilds every acknowledged operation followed by a prefix of the
      batch. */
  lemma CrashedWriteReopens(snap: Data, acked: seq<Command>, batch: seq<Command>, n: nat, now: int) returns (k: nat)
    requires AllFit(acked) && AllFit(batch) && n <= |EncodeAll(batch)|
    ensures k <= |batch| && SizeOf(batch, k) <= n
    ensures Reopen(snap, EncodeAll(acked) + EncodeAll(batch)[..n], now)
            == if SizeOf(batch, k) == n then Some(ApplyAll(snap, acked + batch[..k], now)) else None
    ensures forall j | 0 <= j <= |batch| && SizeOf(batch, j) == n :: j == k
    ensures Decode(EncodeAll(acked) + EncodeAll(batch)[..n]).cmds == acked + batch[..k]
  {
    hide Encode, Fits, ApplyAll, EncodeAll, Decode, SizeOf;
    var cut := EncodeAll(batch)[..n];
    DecodeAfter(acked, cut);
    CutLog(batch, n);
    CutIsPrefix(batch, n);
    k := |Decode(cut).cmds|;
    assert batch[..k] == Decode(cut).cmds;
    forall j | 0 <= j <= |batch| && SizeOf(batch, j) == n ensures j == k {
      if j < k { MoreRecordsMoreBytes(batch, j, k); }
    }
  }

  // ---- everything a store does ----

  /** What the batcher can have in flight: a batch of plain writes, or a single
      state-dependent request, which is logged only if it will take effect. */
  ghost predicate InFlight(s: Disk, batch: seq<Command>, now: int) {
    || (forall i | 0 <= i < |batch| :: batch[i].Put? || batch[i].Delete? || batch[i].Clear?)
    || (|batch| == 1 && LoggedFrom(s.mem, batch[0], now))
  }

  /** `Crash` stops the store with `n` bytes of a batch in the file; `CrashCompacting`
      stops it with the snapshot saved and the log not yet emptied. Both reopen it. */
  datatype Act =
    | Serve(cmd: Command)
    | Compaction
    | Drop(key: Str)
    | SweepAll
    | Crash(batch: seq<Command>, n: nat)
    | CrashCompacting

  ghost predicate Possible(s: Disk, a: Act, now: int) {
    match a
    case Serve(cmd) => Fits(cmd)
    case Crash(batch, _) => AllFit(batch) && InFlight(s, batch, now)
    case _ => true
  }

  function FirstBytes(b: Str, n: nat): Str { if n <= |b| then b[..n] else b }

  /** None stands for a store that refuses to open. */
  function Do(s: Disk, a: Act, now: int): Option<Disk> {
    match a
    case Serve(cmd) => Some(ExecOne(s, Request(cmd, now)).0)
    case Compaction => Some(Compact(s))
    case Drop(k) => Some(s.(mem := Purge(s.mem, k, now)))
    case SweepAll => Some(s.(mem := Live(s.mem, now)))
    case Crash(batch, n) => Restarted(s.snap, EncodeAll(s.wal) + FirstBytes(EncodeAll(batch), n), now)
    case CrashCompacting => Restarted(s.mem, EncodeAll(s.wal), now)
  }

  const EMPTY := Disk(map[], map[], [])

  function DoAll(acts: seq<Act>, now: int): Option<Disk> {
    if acts == [] then Some(EMPTY)
    else match DoAll(acts[..|acts| - 1], now)
      case None => None
      case Some(s) => Do(s, acts[|acts| - 1], now)
  }

  /** Acts of a store that can happen one after another. */
  ghost predicate IsHistory(acts: seq<Act>, now: int) {
    acts == []
    || (IsHistory(acts[..|acts| - 1], now)
        && (DoAll(acts[..|acts| - 1], now).Some? ==> Possible(DoAll(acts[..|acts| - 1], now).value, acts[|acts| - 1], now)))
  }

  lemma {:induction false} BatchIsLogged(s: Disk, batch: seq<Command>, k: nat, now: int)
    requires Alike(s.mem, ApplyAll(s.snap, s.wal, now), now) && InFlight(s, batch, now) && k <= |batch|
    ensures Logged(s.snap, s.wal, now) ==> Logged(s.snap, s.wal + batch[..k], now)
  {
    hide Logged, ApplyAll, Alike;
    if k == 0 {
      assert s.wal + batch[..0] == s.wal;
    } else {
      BatchIsLogged(s, batch, k - 1, now);
      assert s.wal + batch[..k] == s.wal + batch[..k - 1] + [batch[k - 1]];
      LogOneMore(s.snap, s.wal + batch[..k - 1], batch[k - 1], now);
      if k == 1 {
        assert s.wal + batch[..0] == s.wal;
        LoggedRespectsAlike(s.mem, ApplyAll(s.snap, s.wal, now), batch[0], now);
      }
    }
  }

  lemma CrashKeepsSound(s: Disk, batch: seq<Command>, n: nat, now: int)
    requires Sound(s, now) && Possible(s, Crash(batch, n), now)
    ensures var r := Do(s, Crash(batch, n), now);
            r.Some? ==> Sound(r.value, now) && (Logged(s.snap, s.wal, now) ==> Logged(r.value.snap, r.value.wal, now))
  {
    hide Encode, Fits, ApplyAll, EncodeAll, Decode, SizeOf, Logged;
    var bytes := EncodeAll(batch);
    assert bytes == bytes[..|bytes|];
    var k := CrashedWriteReopens(s.snap, s.wal, batch, if n <= |bytes| then n else |bytes|, now);
    var r := Do(s, Crash(batch, n), now);
    if r.Some? {
      assert r.value.wal == s.wal + batch[..k];
      BatchIsLogged(s, batch, k, now);
    }
  }

  lemma CrashCompactingKeepsSound(s: Disk, now: int)
    requires Sound(s, now)
    ensures var r := Do(s, CrashCompacting, now);
            r.Some? && Sound(r.value, now) && r.value.snap == s.mem && r.value.wal == s.wal
  {
    hide Encode, Fits, ApplyAll, EncodeAll, Decode;
    LogRoundTrip(s.wal);
  }

  lemma PossibleServeFits(s: Disk, cmd: Command, now: int)
    requires Possible(s, Serve(cmd), now)
    ensures Fits(cmd)
  {}

  lemma ActKeepsSound(s: Disk, a: Act, now: int)
    requires Sound(s, now) && Possible(s, a, now)
    ensures var r := Do(s, a, now);
            r.Some? ==> Sound(r.value, now)
                        && (Logged(s.snap, s.wal, now) && !a.CrashCompacting? ==> Logged(r.value.snap, r.value.wal, now))
  {
    hide Sound, Logged, ExecOne, Possible, Restarted, EncodeAll;
    match a {
      case Serve(cmd) => PossibleServeFits(s, cmd, now); ExecKeepsSound(s, Request(cmd, now));
      case Compaction => CompactKeepsSound(s, now);
      case Drop(k) => PurgeKeepsSound(s, k, now);
      case SweepAll => PurgeKeepsSound(s, [], now);
      case Crash(batch, n) => CrashKeepsSound(s, batch, n, now);
      case CrashCompacting => CrashCompactingKeepsSound(s, now);
    }
  }

  /** Live memory always equals the snapshot plus the replayed log, over any mix
      of requests, compactions, purges, crashes inside a write or a compaction,
      and reopenings. If no crash fell into a compaction, the log is also one a
      store starting from the snapshot could have written. */
  lemma {:induction false} MemoryIsSnapshotPlusLog(acts: seq<Act>, now: int)
    requires IsHistory(acts, now) && DoAll(acts, now).Some?
    ensures Sound(DoAll(acts, now).value, now)
    ensures (forall i | 0 <= i < |acts| :: !acts[i].CrashCompacting?) ==>
              Logged(DoAll(acts, now).value.snap, DoAll(acts, now).value.wal, now)
  {
    hide Sound, Logged, Do, Possible;
    if acts == [] {
      CompactKeepsSound(EMPTY, now);
      assert Compact(EMPTY) == EMPTY;
    } else {
      var last := |acts| - 1;
      assert forall i | 0 <= i < last :: acts[..last][i] == acts[i];
      MemoryIsSnapshotPlusLog(acts[..last], now);
      ActKeepsSound(DoAll(acts[..last], now).value, acts[last], now);
    }
  }

  // ---- by a real clock ----

  lemma ServedWithoutExpiry(s: Disk, r: Request, t: int)
    requires r.now <= t && NoDeadlineBy(s.mem, [], t) && (r.cmd.Expire? ==> Ahead(r.cmd.deadline, t))
    ensures var s1 := ExecOne(s, r).0;
            && s1.snap == s.snap && NoDeadlineBy(s1.mem, [], t)
            && (s1 == s || (s1.wal == s.wal + [r.cmd] && s1.mem == Apply(s.mem, r.cmd, t).0))
  {
    assert [r.cmd][0] == r.cmd;
    ApplyIgnoresClock(s.mem, r.cmd, r.now, t);
  }

  /** Requests served at their own times, and a replay at any later time `t` by
      which no deadline has passed, agree on all of memory. */
  lemma {:induction false} MemoryBeforeDeadlines(snap: Data, reqs: seq<Request>, t: int)
    requires forall i | 0 <= i < |reqs| :: reqs[i].now <= t
    requires NoDeadlineBy(snap, [], t)
    requires forall i | 0 <= i < |reqs| && reqs[i].cmd.Expire? :: Ahead(reqs[i].cmd.deadline, t)
    ensures var s := ExecAll(Disk(snap, snap, []), reqs).0;
            s.snap == snap && s.mem == ApplyAll(snap, s.wal, t) && NoDeadlineBy(s.mem, [], t)
  {
    hide ExecOne, Apply;
    if reqs == [] {
    } else {
      var last := |reqs| - 1;
      assert forall i | 0 <= i < last :: reqs[..last][i] == reqs[i];
      MemoryBeforeDeadlines(snap, reqs[..last], t);
      var s := ExecAll(Disk(snap, snap, []), reqs[..last]).0;
      ServedWithoutExpiry(s, reqs[last], t);
      LogOneMore(snap, s.wal, reqs[last].cmd, t);
    }
  }

  /** When each record in the log was written. */
  function LogTimes(s: Disk, reqs: seq<Request>): seq<int> {
    if reqs == [] then []
    else
      var p, r := reqs[..|reqs| - 1], reqs[|reqs| - 1];
      var s1 := ExecAll(s, p).0;
      LogTimes(s, p) + if |ExecOne(s1, r).0.wal| > |s1.wal| then [r.now] else []
  }

  /** The clock does not go back and has not passed `t`. */
  ghost predicate Ticks(reqs: seq<Request>, t: int) {
    && (forall i | 0 <= i < |reqs| :: reqs[i].now <= t)
    && (forall i, j | 0 <= i < j < |reqs| :: reqs[i].now <= reqs[j].now)
  }

  lemma OneMoreAt(d: Data, wal: seq<Command>, times: seq<int>, cmd: Command, now: int)
    requires |wal| == |times|
    ensures RunAt(d, wal + [cmd], times + [now]) == Apply(RunAt(d, wal, times), cmd, now).0
    ensures LoggedAt(d, wal + [cmd], times + [now]) <==> LoggedAt(d, wal, times) && LoggedFrom(RunAt(d, wal, times), cmd, now)
  {
    hide Apply, LoggedFrom;
    assert (wal + [cmd])[..|wal|] == wal && (times + [now])[..|times|] == times;
  }

  lemma NothingRun(d: Data, t: int)
    ensures RunAt(d, [], []) == d && LoggedAt(d, [], []) && Alike(d, RunAt(d, [], []), t)
  {}

  /** The log is one that was written at its own times, and memory is what
      running it at those times leaves, as far as a reader at `t` can tell. */
  lemma {:induction false} ServedAtOwnTimes(snap: Data, reqs: seq<Request>, t: int)
    requires Ticks(reqs, t)
    ensures var (s, times) := (ExecAll(Disk(snap, snap, []), reqs).0, LogTimes(Disk(snap, snap, []), reqs));
            && s.snap == snap && |times| == |s.wal| && (forall i | 0 <= i < |times| :: times[i] <= t)
            && LoggedAt(snap, s.wal, times) && Alike(s.mem, RunAt(snap, s.wal, times), t)
  {
    hide ExecOne, Apply, Alike, LoggedFrom, RunAt, LoggedAt;
    var s0 := Disk(snap, snap, []);
    if reqs == [] {
      NothingRun(snap, t);
    } else {
      var p, r := reqs[..|reqs| - 1], reqs[|reqs| - 1];
      assert forall i | 0 <= i < |p| :: p[i] == reqs[i];
      ServedAtOwnTimes(snap, p, r.now);
      var s, times := ExecAll(s0, p).0, LogTimes(s0, p);
      var s1, d := ExecOne(s, r).0, RunAt(snap, s.wal, times);
      ExecLogsOnlySuccess(s, r);
      if s1.wal == s.wal {
        AlikeTransitive(s1.mem, s.mem, d, r.now);
        assert LogTimes(s0, reqs) == times + [] == times;
      } else {
        OneMoreAt(snap, s.wal, times, r.cmd, r.now);
        LoggedRespectsAlike(s.mem, d, r.cmd, r.now);
        ApplyRespectsAlike(s.mem, d, r.cmd, r.now);
        AlikeTransitive(s1.mem, Apply(s.mem, r.cmd, r.now).0, Apply(d, r.cmd, r.now).0, r.now);
        assert LogTimes(s0, reqs) == times + [r.now];
      }
      AlikeLater(s1.mem, RunAt(snap, s1.wal, LogTimes(s0, reqs)), r.now, t);
    }
  }

  /** By a real clock, exactly: after requests served at their own times, none of
      which incremented a key since its last reset, a restart at `t` rebuilds
      memory's live state if and only if no key memory still holds was changed,
      since its last reset, under a deadline that has passed by `t`. */
  lemma MemoryByLaterClock(snap: Data, reqs: seq<Request>, t: int)
    requires Ticks(reqs, t) && forall key :: !IncrSinceReset(ExecAll(Disk(snap, snap, []), reqs).0.wal, key)
    ensures var s := ExecAll(Disk(snap, snap, []), reqs).0;
            Alike(s.mem, ApplyAll(snap, s.wal, t), t)
            <==> forall key :: IsLive(s.mem, key, t) ==> !Forgotten(Slot(snap, key), s.wal, key, t)
  {
    hide ExecAll, Alike, RunAt, ApplyAll, Forgotten, LoggedAt, LogTimes, IncrSinceReset;
    var s, times := ExecAll(Disk(snap, snap, []), reqs).0, LogTimes(Disk(snap, snap, []), reqs);
    ServedAtOwnTimes(snap, reqs, t);
    LaterReplayExactly(snap, s.wal, times, t);
    var o, r := RunAt(snap, s.wal, times), ApplyAll(snap, s.wal, t);
    AlikePointwise(s.mem, o, t);
    AlikePointwise(r, r, t);
    AlikeBothWays(s.mem, o, r, r, t);
  }

  /** Whatever the store did since it was created, any number of crashes and
      reopenings included, a crash inside the next batch or single write leaves a
      log that is either refused as torn or recovers memory's live state plus a
      prefix of that batch. */
  lemma CrashRecovery(acts: seq<Act>, s: Disk, batch: seq<Command>, n: nat, now: int) returns (k: nat)
    requires IsHistory(acts, now) && DoAll(acts, now) == Some(s) && AllFit(batch) && n <= |EncodeAll(batch)|
    ensures k <= |batch|
    ensures var r := Reopen(s.snap, EncodeAll(s.wal) + EncodeAll(batch)[..n], now);
            && (r == None <==> SizeOf(batch, k) < n)
            && (r.Some? ==> SizeOf(batch, k) == n && Alike(r.value, ApplyAll(s.mem, batch[..k], now), now))
  {
    hide Encode, Fits, ApplyAll, EncodeAll, Decode, SizeOf, Alike, DoAll, IsHistory, Logged, Reopen;
    MemoryIsSnapshotPlusLog(acts, now);
    k := CrashedWriteReopens(s.snap, s.wal, batch, n, now);
    ApplyAllAppend(s.snap, s.wal, batch[..k], now);
    AlikeSymmetric(s.mem, ApplyAll(s.snap, s.wal, now), now);
    ReplayRespectsAlike(ApplyAll(s.snap, s.wal, now), s.mem, batch[..k], now);
  }

  /** A crash in the compaction window: the snapshot holds all of memory, and
      the log it makes obsolete is still there. If every incremented key is also
      reset, reopening restores memory's live state if and only if no key is at
      risk. */
  lemma CrashInCompactionWindow(acts: seq<Act>, s: Disk, now: int)
    requires IsHistory(acts, now) && DoAll(acts, now) == Some(s) && IncrsAreReset(s.wal)
    requires forall i | 0 <= i < |acts| :: !acts[i].CrashCompacting?
    ensures var r := Reopen(s.mem, EncodeAll(s.wal), now);
            r.Some? && (Alike(r.value, s.mem, now) <==> forall key :: !AtRisk(s.wal, key))
  {
    hide Encode, Fits, ApplyAll, EncodeAll, Decode, Alike, DoAll, AtRisk, Logged, IsHistory, IncrsAreReset;
    MemoryIsSnapshotPlusLog(acts, now);
    LogRoundTrip(s.wal);
    var m := ApplyAll(s.snap, s.wal, now);
    SecondReplayHarmlessExactly(s.snap, s.wal, now);
    var r, t := ApplyAll(s.mem, s.wal, now), ApplyAll(m, s.wal, now);
    ReplayRespectsAlike(s.mem, m, s.wal, now);
    AlikeBothWays(r, t, s.mem, m, now);
  }
}
