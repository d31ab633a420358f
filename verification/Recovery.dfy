/** End to end: through any history of requests, compactions, purges, crashes and
    reopenings, a store that still opens reads as a plain engine that ran, in order,
    everything that was acknowledged and the whole records of what was cut off. */
module Recovery {
  import opened Basics
  import opened Commands
  import opened Store
  import opened Expiry
  import opened StoreLaws
  import opened Replay
  import opened Codec
  import opened Framing
  import opened D = Disk
  import V = Vault

  ghost predicate ReadsLike(d: Data, r: Data, now: int) { forall k, t | t >= now :: Read(d, k, t) == Read(r, k, t) }

  /** A record is logged exactly when its operation takes effect or cannot fail. */
  lemma LoggedExactly(s: Disk, r: Request)
    ensures var (s1, reply) := ExecOne(s, r);
            && s1.snap == s.snap
            && s1.wal == s.wal + (if reply == Failed(NotFound) || reply == Swapped(false) then [] else [r.cmd])
  {}

  lemma MoreApplied(d: Data, m: Data, cmds: seq<Command>, more: seq<Command>, now: int)
    requires Alike(m, ApplyAll(d, cmds, now), now)
    ensures Alike(ApplyAll(m, more, now), ApplyAll(d, cmds + more, now), now)
  {
    hide Alike, ApplyAll;
    ApplyAllAppend(d, cmds, more, now);
    ReplayRespectsAlike(m, ApplyAll(d, cmds, now), more, now);
  }

  lemma ServedIsApplied(s: Disk, cmd: Command, now: int)
    ensures Alike(ExecOne(s, Request(cmd, now)).0.mem, ApplyAll(s.mem, [cmd], now), now)
  {
    hide ExecOne, Alike;
    ExecOneMatchesEngine(s, Request(cmd, now));
    ApplyOne(s.mem, cmd, now);
  }

  // ---- over a plain log ----

  /** What an act adds to the history a reader can rely on. */
  function Effect(a: Act): seq<Command> {
    match a
    case Serve(cmd) => [cmd]
    case Crash(batch, n) => Decode(FirstBytes(EncodeAll(batch), n)).cmds
    case _ => []
  }

  function Effects(acts: seq<Act>): seq<Command> {
    if acts == [] then [] else Effects(acts[..|acts| - 1]) + Effect(acts[|acts| - 1])
  }

  lemma EncodeNothing()
    ensures EncodeAll([]) == []
  {}

  lemma CrashIsApplied(s: Disk, batch: seq<Command>, n: nat, now: int)
    requires Sound(s, now) && AllFit(batch)
    ensures var r := D.Do(s, Crash(batch, n), now);
            r.Some? ==> Alike(r.value.mem, ApplyAll(s.mem, Effect(Crash(batch, n)), now), now)
  {
    hide Encode, Fits, ApplyAll, EncodeAll, Decode, SizeOf, Alike;
    var bytes := EncodeAll(batch);
    var m := if n <= |bytes| then n else |bytes|;
    assert bytes == bytes[..|bytes|];
    var k := CrashedWriteReopens(s.snap, s.wal, batch, m, now);
    CutIsPrefix(batch, m);
    var none: seq<Command> := [];
    EncodeNothing();
    var j := CrashedWriteReopens(s.snap, none, batch, m, now);
    assert EncodeAll(none) + bytes[..m] == bytes[..m] && none + batch[..j] == batch[..j];
    DecodeAfter(s.wal, bytes[..m]);
    assert batch[..k] == Effect(Crash(batch, n));
    AlikeSymmetric(s.mem, ApplyAll(s.snap, s.wal, now), now);
    ApplyAllAppend(s.snap, s.wal, batch[..k], now);
    ReplayRespectsAlike(ApplyAll(s.snap, s.wal, now), s.mem, batch[..k], now);
  }

  lemma ActIsApplied(s: Disk, a: Act, now: int)
    requires Sound(s, now) && Possible(s, a, now) && !a.CrashCompacting?
    ensures var r := D.Do(s, a, now); r.Some? ==> Alike(r.value.mem, ApplyAll(s.mem, Effect(a), now), now)
  {
    hide ExecOne, Encode, Fits, EncodeAll, Decode, InFlight, Restarted;
    match a {
      case Serve(cmd) => ServedIsApplied(s, cmd, now);
      case Crash(batch, n) => CrashIsApplied(s, batch, n, now);
      case Drop(k) => PurgesKeepLive(s.mem, k, now);
      case SweepAll => PurgesKeepLive(s.mem, [], now);
      case _ =>
    }
  }

  lemma EmptyAlike(now: int)
    ensures Alike(EMPTY.mem, ApplyAll(map[], [], now), now) && Alike(V.NEW.mem, ApplyAll(map[], [], now), now)
  {}

  lemma {:induction false} HistoryIsApplied(acts: seq<Act>, now: int)
    requires IsHistory(acts, now) && DoAll(acts, now).Some? && forall i | 0 <= i < |acts| :: !acts[i].CrashCompacting?
    ensures Alike(DoAll(acts, now).value.mem, ApplyAll(map[], Effects(acts), now), now)
  {
    hide Sound, Possible, D.Do, Effect, Alike, Logged;
    if acts == [] {
      EmptyAlike(now);
    } else {
      var last := |acts| - 1;
      var p := acts[..last];
      assert forall i | 0 <= i < last :: p[i] == acts[i];
      HistoryIsApplied(p, now);
      MemoryIsSnapshotPlusLog(p, now);
      var s := DoAll(p, now).value;
      ActIsApplied(s, acts[last], now);
      MoreApplied(map[], s.mem, Effects(p), Effect(acts[last]), now);
      AlikeTransitive(DoAll(acts, now).value.mem, ApplyAll(s.mem, Effect(acts[last]), now),
                      ApplyAll(map[], Effects(acts), now), now);
    }
  }

  /** A plain log loses nothing that was acknowledged: whatever the store did, if it
      still opens and no crash fell into a compaction, every key reads, from now on,
      as in an engine that ran the whole history. */
  lemma NothingAcknowledgedIsLost(acts: seq<Act>, s: Disk, now: int)
    requires IsHistory(acts, now) && DoAll(acts, now) == Some(s) && forall i | 0 <= i < |acts| :: !acts[i].CrashCompacting?
    ensures ReadsLike(s.mem, ApplyAll(map[], Effects(acts), now), now)
  {
    hide IsHistory, DoAll, Effects, ApplyAll, Alike, Read;
    HistoryIsApplied(acts, now);
    AlikeIsSameReads(s.mem, ApplyAll(map[], Effects(acts), now), now);
  }

  /** After compaction the log is empty, and the store opens, at any time, with
      exactly what memory held. */
  lemma CompactionSettles(s: Disk, now: int, later: int)
    ensures var s1 := D.Do(s, Compaction, now).value;
            && s1 == Disk(s.mem, s.mem, []) && EncodeAll(s1.wal) == []
            && Restarted(s1.snap, EncodeAll(s1.wal), later) == Some(s1)
  {
    EncodeNothing();
  }

  // ---- over an encrypted log ----

  function SealedEffect(s: V.Vault, e: V.Event): seq<Command> {
    match e
    case Serves(cmd, _) => [cmd]
    case Crashes(batch, sealed, n) => if s.torn == [] then batch[..Min(V.Whole(sealed, n), |batch|)] else []
    case _ => []
  }

  function SealedEffects(open: Opener, events: seq<V.Event>, now: int): seq<Command> {
    if events == [] then []
    else
      var past := events[..|events| - 1];
      match V.HappenAll(open, past, now)
      case None => []
      case Some(s) => SealedEffects(open, past, now) + SealedEffect(s, events[|events| - 1])
  }

  lemma SealedCrashIsApplied(open: Opener, s: V.Vault, e: V.Event, now: int)
    requires V.Safe(open, s, now) && e.Crashes? && V.CanHappen(open, s, e, now)
    ensures var r := V.Happen(open, s, e, now);
            r.Some? ==> Alike(r.value.mem, ApplyAll(s.mem, SealedEffect(s, e), now), now)
  {
    hide Alike, ApplyAll, Encode, SealFits, Fits, Frames, Frame, Authentic, InFlight, DecodeSealed, Seals;
    if s.torn == [] {
      V.WholeFileCut(open, s, e.batch, e.sealed, e.n);
      var k := V.Whole(e.sealed, e.n);
      assert s.wal + s.later == s.wal;
      V.ReplayOntoMemory(s.snap, s.mem, s.wal, e.batch[..k], now);
    } else {
      V.TornFileCut(open, s, e.sealed, e.n);
      var r := V.Happen(open, s, e, now);
      if r.Some? {
        if s.later != [] { V.AppendedIsLong(open, s, now); }
        assert s.wal + s.later == s.wal;
        AlikeSymmetric(s.mem, ApplyAll(s.snap, s.wal, now), now);
        V.NewMemory(s.mem, [], now);
      }
    }
  }

  lemma SealedEventIsApplied(open: Opener, s: V.Vault, e: V.Event, now: int)
    requires V.Safe(open, s, now) && V.CanHappen(open, s, e, now) && !e.CrashesCompacting?
    ensures var r := V.Happen(open, s, e, now);
            r.Some? ==> Alike(r.value.mem, ApplyAll(s.mem, SealedEffect(s, e), now), now)
  {
    hide ExecOne, Encode, Fits, Frames, InFlight, V.UnsealAt, Seals, SealFits, Authentic, V.Tolerated, ApplyAll;
    V.NewMemory(s.mem, [], now);
    match e {
      case Serves(cmd, blob) => ServedIsApplied(V.AsDisk(s), cmd, now);
      case Crashes(_, _, _) => SealedCrashIsApplied(open, s, e, now);
      case Drops(k) => PurgesKeepLive(s.mem, k, now);
      case Sweeps => PurgesKeepLive(s.mem, [], now);
      case _ =>
    }
  }

  lemma {:induction false} PastIsApplied(open: Opener, events: seq<V.Event>, now: int)
    requires V.IsPast(open, events, now) && V.HappenAll(open, events, now).Some?
    requires forall i | 0 <= i < |events| :: !events[i].CrashesCompacting?
    ensures Alike(V.HappenAll(open, events, now).value.mem, ApplyAll(map[], SealedEffects(open, events, now), now), now)
  {
    hide V.Safe, V.CanHappen, V.Happen, SealedEffect, Alike;
    if events == [] {
      EmptyAlike(now);
    } else {
      var last := |events| - 1;
      var p := events[..last];
      assert forall i | 0 <= i < last :: p[i] == events[i];
      PastIsApplied(open, p, now);
      V.PastIsSafe(open, p, now);
      var s := V.HappenAll(open, p, now).value;
      var more := SealedEffect(s, events[last]);
      SealedEventIsApplied(open, s, events[last], now);
      MoreApplied(map[], s.mem, SealedEffects(open, p, now), more, now);
      AlikeTransitive(V.HappenAll(open, events, now).value.mem, ApplyAll(s.mem, more, now),
                      ApplyAll(map[], SealedEffects(open, events, now), now), now);
    }
  }

  /** The same of an encrypted log: as long as the store opens. */
  lemma NothingSealedIsLost(open: Opener, events: seq<V.Event>, s: V.Vault, now: int)
    requires V.IsPast(open, events, now) && V.HappenAll(open, events, now) == Some(s)
    requires forall i | 0 <= i < |events| :: !events[i].CrashesCompacting?
    ensures ReadsLike(s.mem, ApplyAll(map[], SealedEffects(open, events, now), now), now)
  {
    hide V.IsPast, V.HappenAll, SealedEffects, ApplyAll, Alike, Read;
    PastIsApplied(open, events, now);
    AlikeIsSameReads(s.mem, ApplyAll(map[], SealedEffects(open, events, now), now), now);
  }

  /** Compaction repairs a tear: the file is one byte again, and the store opens with
      exactly what memory held. */
  lemma CompactionRepairs(open: Opener, s: V.Vault, now: int, later: int)
    ensures var s1 := V.Happen(open, s, V.Compacts, now).value;
            && V.FileOf(s1) == [240] && s1.mem == s1.snap == s.mem
            && V.UnsealAt(open, s1.snap, V.FileOf(s1), later) == Some(s.mem)
  {
    var s1 := V.Happen(open, s, V.Compacts, now).value;
    V.FramesOfNone();
    assert V.FileOf(s1) == [240];
    NoFrames(open);
  }
}
