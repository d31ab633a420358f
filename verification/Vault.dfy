/** The durable store over an encrypted log, through any history of requests,
    compactions, purges, crashes and reopenings. A tear in or right behind a length
    header is tolerated but stays in the file, and then everything depends on
    whether something is appended behind it. */
module Vault {
  import opened Basics
  import opened Commands
  import opened Store
  import opened Expiry
  import opened Replay
  import opened Codec
  import opened Framing
  import opened Disk

  /** The log file holds the sealed records `blobs` of `wal`, then a tolerated tear,
      then the sealed records `more` of `later`, appended since. */
  datatype Vault = Vault(
    mem: Data, snap: Data,
    wal: seq<Command>, blobs: seq<Str>, torn: Str, later: seq<Command>, more: seq<Str>)

  function FileOf(s: Vault): Str { [MAGIC] + Frames(s.blobs) + (s.torn + Frames(s.more)) }

  function UnsealAt(open: Opener, snap: Data, file: Str, now: int): Option<Data> {
    var l := DecodeSealed(open, file);
    if l.ok then Some(ApplyAll(snap, l.cmds, now)) else None
  }

  /** What replay stops at without complaint. */
  predicate Tolerated(tail: Str) { |tail| < 4 || (|tail| == 4 && 1 <= ReadU32(tail) <= MAX_SEALED) }

  /** Sealed records replay can read. */
  ghost predicate Sealable(open: Opener, cmds: seq<Command>, blobs: seq<Str>) {
    AllFit(cmds) && SealsAll(open, cmds, blobs) && forall i | 0 <= i < |cmds| :: SealFits(cmds[i])
  }

  // ---- frames ----

  lemma {:induction false} FramesAppend(a: seq<Str>, b: seq<Str>)
    ensures Frames(a + b) == Frames(a) + Frames(b)
  {
    hide Frame;
    if a == [] {
      assert a + b == b;
    } else {
      FramesAppend(a[1..], b);
      assert (a + b)[1..] == a[1..] + b;
    }
  }

  /** How many whole frames the first `n` bytes hold. */
  function Whole(blobs: seq<Str>, n: nat): (k: nat)
    ensures k <= |blobs|
  {
    if blobs == [] || n < |Frame(blobs[0])| then 0 else 1 + Whole(blobs[1..], n - |Frame(blobs[0])|)
  }

  /** And what is left of the next one. */
  function Remnant(blobs: seq<Str>, n: nat): Str {
    if blobs == [] then []
    else if n < |Frame(blobs[0])| then Frame(blobs[0])[..n]
    else Remnant(blobs[1..], n - |Frame(blobs[0])|)
  }

  lemma {:induction false} CutFrames(blobs: seq<Str>, n: nat)
    requires n <= |Frames(blobs)|
    ensures var (k, r) := (Whole(blobs, n), Remnant(blobs, n));
            && Frames(blobs)[..n] == Frames(blobs[..k]) + r
            && (if k < |blobs| then |r| < |Frame(blobs[k])| && r == Frame(blobs[k])[..|r|] else r == [])
    decreases |blobs|
  {
    hide Frame;
    if blobs == [] {
      assert Frames(blobs)[..n] == [] && blobs[..0] == [];
    } else {
      var f := Frame(blobs[0]);
      assert Frames(blobs) == f + Frames(blobs[1..]);
      if n < |f| {
        assert Frames(blobs)[..n] == f[..n] && blobs[..0] == [] && Frames(blobs[..0]) == [];
      } else {
        CutFrames(blobs[1..], n - |f|);
        var k := Whole(blobs[1..], n - |f|);
        assert blobs[..k + 1][1..] == blobs[1..][..k];
        assert Frames(blobs[..k + 1]) == f + Frames(blobs[1..][..k]);
        assert Frames(blobs)[..n] == f + Frames(blobs[1..])[..n - |f|];
      }
    }
  }

  lemma ToleratedStops(open: Opener, tail: Str)
    requires Tolerated(tail)
    ensures DecodeFrames(open, tail) == Unsealed([], true)
  {
    hide Decode, ReadU32;
  }

  lemma NothingOpens(open: Opener, torn: Str, blobs: seq<Str>, e: nat)
    requires 1 <= |torn| <= 4 <= e <= |torn + Frames(blobs)| && Authentic(open, torn, blobs)
    ensures open((torn + Frames(blobs))[4..e]) == None
  {
    hide Frames;
  }

  /** Nothing of the torn part and what follows it opens where replay looks. */
  lemma TearIsFinal(open: Opener, torn: Str, blobs: seq<Str>, n: nat)
    requires 1 <= |torn| <= 4 && n <= |Frames(blobs)| && Authentic(open, torn, blobs)
    ensures var tail := torn + Frames(blobs)[..n];
            DecodeFrames(open, tail) == Unsealed([], Tolerated(tail))
  {
    hide ReadU32, Decode, Frames, BodyStart;
    var file, tail := torn + Frames(blobs), torn + Frames(blobs)[..n];
    if Tolerated(tail) {
      ToleratedStops(open, tail);
    } else {
      assert tail == file[..|torn| + n];
      var len, body := ReadU32(tail), tail[4..];
      if len <= |body| {
        assert body[..len] == file[4..4 + len];
        NothingOpens(open, torn, blobs, 4 + len);
      }
    }
  }

  // ---- reading a file ----

  lemma FileReads(open: Opener, s: Vault, tail: Str)
    requires Sealable(open, s.wal, s.blobs)
    ensures var l := DecodeFrames(open, tail);
            DecodeSealed(open, [MAGIC] + Frames(s.blobs) + tail) == Unsealed(s.wal + l.cmds, l.ok)
  {
    hide DecodeFrames, Frames, SealFits, Fits, Encode;
    FramesRead(open, s.wal, s.blobs, tail);
    assert ([MAGIC] + Frames(s.blobs) + tail)[1..] == Frames(s.blobs) + tail;
  }

  lemma SealableParts(open: Opener, cmds: seq<Command>, blobs: seq<Str>, k: nat)
    requires Sealable(open, cmds, blobs) && k <= |cmds|
    ensures Sealable(open, cmds[..k], blobs[..k])
  {
    hide SealFits, Fits, Encode;
  }

  lemma SealableTogether(open: Opener, a: seq<Command>, ablobs: seq<Str>, b: seq<Command>, bblobs: seq<Str>)
    requires Sealable(open, a, ablobs) && Sealable(open, b, bblobs)
    ensures Sealable(open, a + b, ablobs + bblobs)
  {
    hide SealFits, Fits, Encode;
  }

  lemma BlobBounds(open: Opener, cmds: seq<Command>, blobs: seq<Str>, i: nat)
    requires Sealable(open, cmds, blobs) && i < |cmds|
    ensures OVERHEAD <= |blobs[i]| <= MAX_SEALED
  {
    hide Encode;
  }

  /** A cut header or a whole one behind complete records is tolerated. */
  lemma CutHeaderTolerated(blob: Str, n: nat)
    requires 1 <= |blob| <= MAX_SEALED && n < |Frame(blob)|
    ensures Tolerated(Frame(blob)[..n]) <==> n <= 4
  {
    hide U32, ReadU32;
    if n == 4 {
      assert Frame(blob)[..4] == U32(|blob|) + [];
      U32RoundTrip(|blob|, []);
    }
  }

  lemma RemnantTolerated(open: Opener, batch: seq<Command>, sealed: seq<Str>, n: nat)
    requires Sealable(open, batch, sealed) && n <= |Frames(sealed)|
    ensures var r := Remnant(sealed, n);
            (Tolerated(r) <==> |r| <= 4) && DecodeFrames(open, r) == Unsealed([], |r| <= 4)
  {
    hide Frame, Frames, DecodeFrames, Encode, SealFits, Fits;
    CutFrames(sealed, n);
    var k, r := Whole(sealed, n), Remnant(sealed, n);
    if k < |sealed| {
      BlobBounds(open, batch, sealed, k);
      CutFrame(open, sealed[k], |r|);
      CutHeaderTolerated(sealed[k], |r|);
    } else {
      NoFrames(open);
    }
  }

  lemma FramesOfNone()
    ensures Frames([]) == []
  {}

  /** A crash inside a batch, with no tear in the file: the complete records survive,
      and the file opens if and only if the cut is at most 4 bytes into a frame. */
  lemma WholeFileCut(open: Opener, s: Vault, batch: seq<Command>, sealed: seq<Str>, n: nat)
    requires Sealable(open, s.wal, s.blobs) && s.torn == [] && s.more == []
    requires Sealable(open, batch, sealed) && n <= |Frames(sealed)|
    ensures var (k, r) := (Whole(sealed, n), Remnant(sealed, n));
            DecodeSealed(open, FileOf(s) + Frames(sealed)[..n]) == Unsealed(s.wal + batch[..k], |r| <= 4)
  {
    hide Frame, Frames, DecodeFrames, DecodeSealed, Encode, SealFits, Fits;
    var k, r := Whole(sealed, n), Remnant(sealed, n);
    CutFrames(sealed, n);
    RemnantTolerated(open, batch, sealed, n);
    FramesOfNone();
    assert FileOf(s) + Frames(sealed)[..n] == [MAGIC] + Frames(s.blobs) + (Frames(sealed[..k]) + r);
    SealableParts(open, batch, sealed, k);
    FramesRead(open, batch[..k], sealed[..k], r);
    assert batch[..k] + [] == batch[..k];
    FileReads(open, s, Frames(sealed[..k]) + r);
  }

  /** With a tear in the file, nothing behind it is read. */
  lemma TornFileCut(open: Opener, s: Vault, sealed: seq<Str>, n: nat)
    requires Sealable(open, s.wal, s.blobs) && 1 <= |s.torn| <= 4 && n <= |Frames(sealed)|
    requires Authentic(open, s.torn, s.more + sealed)
    ensures var tail := s.torn + Frames(s.more) + Frames(sealed)[..n];
            DecodeSealed(open, FileOf(s) + Frames(sealed)[..n]) == Unsealed(s.wal, Tolerated(tail))
  {
    hide Frame, Frames, DecodeFrames, DecodeSealed, Authentic, Tolerated;
    FramesAppend(s.more, sealed);
    var all, m := Frames(s.more + sealed), |Frames(s.more)| + n;
    assert all[..m] == Frames(s.more) + Frames(sealed)[..n];
    var tail := s.torn + Frames(s.more) + Frames(sealed)[..n];
    assert tail == s.torn + all[..m];
    TearIsFinal(open, s.torn, s.more + sealed, m);
    FileReads(open, s, tail);
    assert FileOf(s) + Frames(sealed)[..n] == [MAGIC] + Frames(s.blobs) + tail;
    assert s.wal + [] == s.wal;
  }

  // ---- everything a store does ----

  /** The plain store this one stands for. */
  function AsDisk(s: Vault): Disk { Disk(s.mem, s.snap, s.wal + s.later) }

  datatype Event =
    | Serves(cmd: Command, blob: Str)
    | Compacts
    | Drops(key: Str)
    | Sweeps
    | Crashes(batch: seq<Command>, sealed: seq<Str>, n: nat)     // `n` bytes of the batch reached the file
    | CrashesCompacting                                          // snapshot saved, log not yet emptied

  ghost predicate CanHappen(open: Opener, s: Vault, e: Event, now: int) {
    match e
    case Serves(cmd, blob) => Sealable(open, [cmd], [blob])
    case Crashes(batch, sealed, n) =>
      && Sealable(open, batch, sealed) && n <= |Frames(sealed)| && InFlight(AsDisk(s), batch, now)
      && (s.torn != [] ==> Authentic(open, s.torn, s.more + sealed))
    case CrashesCompacting => s.torn != [] ==> Authentic(open, s.torn, s.more)
    case _ => true
  }

  /** A record goes to the end of the file, behind a tear if there is one. */
  function Record(s: Vault, cmd: Command, blob: Str): Vault {
    if s.torn == [] then s.(wal := s.wal + [cmd], blobs := s.blobs + [blob])
    else s.(later := s.later + [cmd], more := s.more + [blob])
  }

  /** None stands for a store that refuses to open. */
  function Happen(open: Opener, s: Vault, e: Event, now: int): Option<Vault> {
    match e
    case Serves(cmd, blob) =>
      var d := ExecOne(AsDisk(s), Request(cmd, now)).0;
      Some((if |d.wal| > |s.wal + s.later| then Record(s, cmd, blob) else s).(mem := d.mem))
    case Compacts => Some(Vault(s.mem, s.mem, [], [], [], [], []))
    case Drops(k) => Some(s.(mem := Purge(s.mem, k, now)))
    case Sweeps => Some(s.(mem := Live(s.mem, now)))
    case Crashes(batch, sealed, n) =>
      var cut := FirstBytes(Frames(sealed), n);
      (match UnsealAt(open, s.snap, FileOf(s) + cut, now)
       case None => None
       case Some(mem) =>
         var k := Min(Whole(sealed, n), |batch|);
         Some(if s.torn != [] then Vault(mem, s.snap, s.wal, s.blobs, s.torn + Frames(s.more) + cut, [], [])
              else Vault(mem, s.snap, s.wal + batch[..k], s.blobs + sealed[..k], Remnant(sealed, n), [], [])))
    case CrashesCompacting =>
      match UnsealAt(open, s.mem, FileOf(s), now)
      case None => None
      case Some(mem) => Some(Vault(mem, s.mem, s.wal, s.blobs, s.torn + Frames(s.more), [], []))
  }

  const NEW := Vault(map[], map[], [], [], [], [], [])

  function HappenAll(open: Opener, events: seq<Event>, now: int): Option<Vault> {
    if events == [] then Some(NEW)
    else match HappenAll(open, events[..|events| - 1], now)
      case None => None
      case Some(s) => Happen(open, s, events[|events| - 1], now)
  }

  ghost predicate IsPast(open: Opener, events: seq<Event>, now: int) {
    events == []
    || (var past := events[..|events| - 1];
        && IsPast(open, past, now)
        && (HappenAll(open, past, now).Some? ==>
              CanHappen(open, HappenAll(open, past, now).value, events[|events| - 1], now)))
  }

  // ---- the invariant ----

  ghost predicate Safe(open: Opener, s: Vault, now: int) {
    && Sealable(open, s.wal, s.blobs) && Sealable(open, s.later, s.more)
    && Tolerated(s.torn) && (s.torn == [] ==> s.later == [])
    && Alike(s.mem, ApplyAll(s.snap, s.wal + s.later, now), now)
  }

  lemma SafeIsSound(open: Opener, s: Vault, now: int)
    requires Safe(open, s, now)
    ensures Sound(AsDisk(s), now)
  {
    hide Alike, ApplyAll, Encode, SealFits, Fits, Tolerated;
  }

  lemma ExecAppends(d: Disk, r: Request)
    ensures var d1 := ExecOne(d, r).0;
            d1.snap == d.snap && (d1.wal == d.wal || d1.wal == d.wal + [r.cmd])
  {}

  lemma ServesKeepsSafe(open: Opener, s: Vault, cmd: Command, blob: Str, now: int)
    requires Safe(open, s, now) && Sealable(open, [cmd], [blob])
    ensures Safe(open, Happen(open, s, Serves(cmd, blob), now).value, now)
  {
    hide Alike, ApplyAll, Encode, SealFits, Fits, Tolerated, ExecOne, Seals;
    var d := ExecOne(AsDisk(s), Request(cmd, now)).0;
    SafeIsSound(open, s, now);
    assert Fits(cmd) by { assert [cmd][0] == cmd; }
    ExecKeepsSound(AsDisk(s), Request(cmd, now));
    ExecAppends(AsDisk(s), Request(cmd, now));
    SealableTogether(open, s.wal, s.blobs, [cmd], [blob]);
    SealableTogether(open, s.later, s.more, [cmd], [blob]);
    assert s.later == [] ==> s.wal + s.later + [cmd] == s.wal + [cmd] + s.later;
    assert s.wal + s.later + [cmd] == s.wal + (s.later + [cmd]);
  }

  lemma NewMemory(snap: Data, cmds: seq<Command>, now: int)
    ensures Alike(ApplyAll(snap, cmds, now), ApplyAll(snap, cmds, now), now) && ApplyAll(snap, [], now) == snap
  {}

  lemma CrashKeepsSafe(open: Opener, s: Vault, e: Event, now: int)
    requires Safe(open, s, now) && e.Crashes? && CanHappen(open, s, e, now)
    ensures var r := Happen(open, s, e, now); r.Some? ==> Safe(open, r.value, now)
  {
    hide Alike, ApplyAll, Encode, SealFits, Fits, Frames, Frame, Authentic, InFlight, DecodeSealed, Seals;
    var k := Whole(e.sealed, e.n);
    if s.torn == [] {
      WholeFileCut(open, s, e.batch, e.sealed, e.n);
      RemnantTolerated(open, e.batch, e.sealed, e.n);
      SealableParts(open, e.batch, e.sealed, k);
      SealableTogether(open, s.wal, s.blobs, e.batch[..k], e.sealed[..k]);
      NewMemory(s.snap, s.wal + e.batch[..k], now);
      assert s.wal + e.batch[..k] + [] == s.wal + e.batch[..k];
    } else {
      TornFileCut(open, s, e.sealed, e.n);
      NewMemory(s.snap, s.wal, now);
      assert s.wal + [] == s.wal;
    }
  }

  lemma ToleratedIsShort(tail: Str)
    requires Tolerated(tail)
    ensures |tail| <= 4
  {}

  /** The whole file, as it is. */
  lemma FileAsIs(open: Opener, s: Vault, now: int)
    requires Safe(open, s, now) && (s.torn != [] ==> Authentic(open, s.torn, s.more))
    ensures DecodeSealed(open, FileOf(s)) == Unsealed(s.wal, Tolerated(s.torn + Frames(s.more)))
  {
    hide Alike, ApplyAll, Encode, SealFits, Fits, Frame, Authentic, DecodeSealed, Tolerated, DecodeFrames, Seals;
    var none: seq<Str> := [];
    assert s.more + none == s.more && FileOf(s) + Frames(none)[..0] == FileOf(s);
    if s.torn == [] {
      WholeFileCut(open, s, [], none, 0);
      assert s.wal + [] == s.wal && s.torn + Frames(s.more) == [] && Tolerated([]);
    } else {
      ToleratedIsShort(s.torn);
      TornFileCut(open, s, none, 0);
      assert s.torn + Frames(s.more) + Frames(none)[..0] == s.torn + Frames(s.more);
    }
  }

  lemma CrashCompactingKeepsSafe(open: Opener, s: Vault, now: int)
    requires Safe(open, s, now) && CanHappen(open, s, CrashesCompacting, now)
    ensures var r := Happen(open, s, CrashesCompacting, now); r.Some? ==> Safe(open, r.value, now)
  {
    hide Alike, ApplyAll, Encode, SealFits, Fits, Frame, Authentic, DecodeSealed, Tolerated, DecodeFrames, Seals;
    FileAsIs(open, s, now);
    NewMemory(s.mem, s.wal, now);
    assert s.wal + [] == s.wal;
  }

  lemma PurgedAlike(d: Data, r: Data, k: Str, now: int)
    requires Alike(d, r, now)
    ensures Alike(Purge(d, k, now), r, now) && Alike(Live(d, now), r, now)
  {
    PurgesKeepLive(d, k, now);
  }

  lemma EventKeepsSafe(open: Opener, s: Vault, e: Event, now: int)
    requires Safe(open, s, now) && CanHappen(open, s, e, now)
    ensures var r := Happen(open, s, e, now); r.Some? ==> Safe(open, r.value, now)
  {
    hide Alike, ApplyAll, Encode, SealFits, Fits, Frames, UnsealAt, InFlight, ExecOne, Authentic, Seals;
    var none: seq<Command> := [];
    assert none + none == none;
    match e {
      case Serves(cmd, blob) => ServesKeepsSafe(open, s, cmd, blob, now);
      case Compacts => NewMemory(s.mem, [], now);
      case Drops(k) => PurgedAlike(s.mem, ApplyAll(s.snap, s.wal + s.later, now), k, now);
      case Sweeps => PurgedAlike(s.mem, ApplyAll(s.snap, s.wal + s.later, now), [], now);
      case Crashes(_, _, _) => CrashKeepsSafe(open, s, e, now);
      case CrashesCompacting => CrashCompactingKeepsSafe(open, s, now);
    }
  }

  lemma NewIsSafe(open: Opener, now: int)
    ensures Safe(open, NEW, now)
  {}

  lemma {:induction false} PastIsSafe(open: Opener, events: seq<Event>, now: int)
    requires IsPast(open, events, now) && HappenAll(open, events, now).Some?
    ensures Safe(open, HappenAll(open, events, now).value, now)
  {
    hide Happen, CanHappen, Sealable, Alike, Tolerated;
    if events == [] {
      NewIsSafe(open, now);
    } else {
      var past := events[..|events| - 1];
      PastIsSafe(open, past, now);
      EventKeepsSafe(open, HappenAll(open, past, now).value, events[|events| - 1], now);
    }
  }

  // ---- recovery ----

  lemma ReplayOntoMemory(snap: Data, mem: Data, wal: seq<Command>, more: seq<Command>, now: int)
    requires Alike(mem, ApplyAll(snap, wal, now), now)
    ensures Alike(ApplyAll(snap, wal + more, now), ApplyAll(mem, more, now), now)
  {
    hide Alike, ApplyAll;
    ApplyAllAppend(snap, wal, more, now);
    AlikeSymmetric(mem, ApplyAll(snap, wal, now), now);
    ReplayRespectsAlike(ApplyAll(snap, wal, now), mem, more, now);
  }

  lemma AppendedIsLong(open: Opener, s: Vault, now: int)
    requires Safe(open, s, now) && s.later != []
    ensures |s.torn + Frames(s.more)| > 4
  {
    hide U32, Alike, ApplyAll, Encode, SealFits, Fits, Tolerated;
    BlobBounds(open, s.later, s.more, 0);
    FirstFrame(s.more);
  }

  /** Crash recovery of an encrypted store, whatever it did since it was created, any
      number of crashes and reopenings included. A crash leaves `n` bytes of a batch
      in the file. With no tear in the file, it opens if and only if the cut is at
      most 4 bytes into a frame, and recovers memory's live state plus the whole
      records of the batch. With a tear and nothing appended since, it opens if and
      only if the tear and the cut together are still a tear, and recovers memory.
      Once something was acknowledged behind a tear, it never opens again. */
  lemma SealedCrashRecovery(open: Opener, events: seq<Event>, s: Vault, batch: seq<Command>, sealed: seq<Str>, n: nat,
                            now: int)
    requires IsPast(open, events, now) && HappenAll(open, events, now) == Some(s)
    requires CanHappen(open, s, Crashes(batch, sealed, n), now)
    ensures |sealed| == |batch|
    ensures var r := UnsealAt(open, s.snap, FileOf(s) + Frames(sealed)[..n], now);
            if s.torn == [] then
              && (r.Some? <==> |Remnant(sealed, n)| <= 4)
              && (r.Some? ==> Alike(r.value, ApplyAll(s.mem, batch[..Whole(sealed, n)], now), now))
            else if s.later == [] then
              && (r.Some? <==> Tolerated(s.torn + Frames(sealed)[..n]))
              && (r.Some? ==> Alike(r.value, s.mem, now))
            else r == None
  {
    hide Alike, ApplyAll, Encode, SealFits, Fits, Frames, Frame, Authentic, InFlight, DecodeSealed, HappenAll, IsPast,
         Seals;
    PastIsSafe(open, events, now);
    assert s.wal + [] == s.wal;
    if s.torn == [] {
      WholeFileCut(open, s, batch, sealed, n);
      ReplayOntoMemory(s.snap, s.mem, s.wal, batch[..Whole(sealed, n)], now);
    } else {
      TornFileCut(open, s, sealed, n);
      if s.later == [] {
        FramesOfNone();
        assert s.torn + Frames([]) + Frames(sealed)[..n] == s.torn + Frames(sealed)[..n];
        AlikeSymmetric(s.mem, ApplyAll(s.snap, s.wal, now), now);
      } else {
        AppendedIsLong(open, s, now);
      }
    }
  }

  /** In particular, a store that was simply stopped opens again, with memory's live
      state, if and only if nothing was acknowledged behind a tear. */
  lemma SealedReopensExactly(open: Opener, events: seq<Event>, s: Vault, now: int)
    requires IsPast(open, events, now) && HappenAll(open, events, now) == Some(s)
    requires s.torn != [] ==> Authentic(open, s.torn, s.more)
    ensures var r := UnsealAt(open, s.snap, FileOf(s), now);
            (r.Some? <==> s.torn == [] || s.later == []) && (r.Some? ==> Alike(r.value, s.mem, now))
  {
    hide Alike, ApplyAll, Encode, SealFits, Fits, Frame, Authentic, DecodeSealed, HappenAll, IsPast, UnsealAt, FileOf,
         DecodeFrames;
    PastIsSafe(open, events, now);
    var none: seq<Str> := [];
    assert s.more + none == s.more && FileOf(s) + Frames(none)[..0] == FileOf(s);
    SealedCrashRecovery(open, events, s, [], none, 0, now);
    NewMemory(s.mem, [], now);
    assert s.torn + Frames(none)[..0] == s.torn;
  }
}
