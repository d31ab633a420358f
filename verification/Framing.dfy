/** The encrypted log: each record sealed, each blob behind a length header.
    The cipher is abstract: what matters is that opening a blob gives back the
    record it was sealed from, and that sealing adds 28 bytes. */
module Framing {
  import opened Basics
  import opened Commands
  import opened Decimal
  import opened Codec

  const MAGIC: byte := 0xF0
  const OVERHEAD := 28
  const MAX_SEALED := 2 * MAX_FIELD + 64

  /** Decrypt under the configured key. */
  type Opener = Str -> Option<Str>

  /** What replayEncrypted applies, and whether it reports success. */
  datatype Unsealed = Unsealed(cmds: seq<Command>, ok: bool)

  function DecodeFrames(open: Opener, b: Str): Unsealed
    decreases |b|
  {
    if |b| < 4 then Unsealed([], true)
    else
      var len, body := ReadU32(b), b[4..];
      if len > MAX_SEALED then Unsealed([], false)
      else if |body| < len then Unsealed([], body == [])
      else match open(body[..len])
        case None => Unsealed([], false)
        case Some(plain) =>
          var l := Decode(plain);
          if l.rest != [] then Unsealed(l.cmds, false)
          else
            var more := DecodeFrames(open, body[len..]);
            Unsealed(l.cmds + more.cmds, more.ok)
  }

  function DecodeSealed(open: Opener, b: Str): Unsealed {
    if b == [] then Unsealed([], true)
    else if b[0] != MAGIC then Unsealed([], false)
    else DecodeFrames(open, b[1..])
  }

  /** `blob` is what Encrypt produced, under some nonce, for the record of `cmd`. */
  ghost predicate Seals(open: Opener, cmd: Command, blob: Str) {
    open(blob) == Some(Encode(cmd)) && |blob| == |Encode(cmd)| + OVERHEAD
  }

  ghost predicate SealsAll(open: Opener, cmds: seq<Command>, blobs: seq<Str>) {
    |cmds| == |blobs| && forall i | 0 <= i < |cmds| :: Seals(open, cmds[i], blobs[i])
  }

  function Frame(blob: Str): Str { U32(|blob|) + blob }

  function Frames(blobs: seq<Str>): Str {
    if blobs == [] then [] else Frame(blobs[0]) + Frames(blobs[1..])
  }

  /** The sealed record is within the bound replay puts on a blob. */
  predicate SealFits(cmd: Command) { |Encode(cmd)| + OVERHEAD <= MAX_SEALED }

  /** Among records within the field bound, only a CAS whose three fields exceed
      2^21 + 23 bytes in total is too large once sealed. */
  lemma SealFitsExactly(cmd: Command)
    requires Fits(cmd)
    ensures SealFits(cmd) <==> (cmd.CAS? ==> |cmd.key| + |cmd.old_| + |cmd.new_| <= 2 * MAX_FIELD + 23)
  {}

  lemma SealedLength(open: Opener, cmd: Command, blob: Str)
    requires Fits(cmd) && Seals(open, cmd, blob)
    ensures |blob| < TWO32
  {}

  lemma FrameHeader(blob: Str, tail: Str)
    requires |blob| < TWO32
    ensures var b := Frame(blob) + tail;
            |b| >= 4 && ReadU32(b) == |blob| && b[4..] == blob + tail
  {
    assert Frame(blob) + tail == U32(|blob|) + (blob + tail);
    U32RoundTrip(|blob|, blob + tail);
  }

  /** One sealed record in front of anything is read back and dropped. */
  lemma FrameRead(open: Opener, cmd: Command, blob: Str, tail: Str)
    requires Fits(cmd) && SealFits(cmd) && Seals(open, cmd, blob)
    ensures var more := DecodeFrames(open, tail);
            DecodeFrames(open, Frame(blob) + tail) == Unsealed([cmd] + more.cmds, more.ok)
  {
    hide U32, ReadU32, Frame, Encode, Decode, Fits;
    var b := Frame(blob) + tail;
    FrameHeader(blob, tail);
    assert b[4..][..|blob|] == blob && b[4..][|blob|..] == tail;
    LogRoundTrip([cmd]);
    assert EncodeAll([cmd]) == Encode(cmd) + EncodeAll([]) == Encode(cmd);
  }

  lemma {:induction false} FramesRead(open: Opener, cmds: seq<Command>, blobs: seq<Str>, tail: Str)
    requires AllFit(cmds) && SealsAll(open, cmds, blobs) && forall i | 0 <= i < |cmds| :: SealFits(cmds[i])
    ensures var more := DecodeFrames(open, tail);
            DecodeFrames(open, Frames(blobs) + tail) == Unsealed(cmds + more.cmds, more.ok)
    decreases |cmds|
  {
    hide Frame, Encode, Decode, Fits, DecodeFrames, SealFits;
    if cmds == [] {
      assert Frames(blobs) + tail == tail;
    } else {
      var rest := Frames(blobs[1..]) + tail;
      assert Frames(blobs) + tail == Frame(blobs[0]) + rest;
      FramesRead(open, cmds[1..], blobs[1..], tail);
      FrameRead(open, cmds[0], blobs[0], rest);
      assert cmds == [cmds[0]] + cmds[1..];
    }
  }

  /** A sealed log replays to exactly the operations of the plain log. */
  lemma SealedLogRefinesPlain(open: Opener, cmds: seq<Command>, blobs: seq<Str>)
    requires AllFit(cmds) && SealsAll(open, cmds, blobs) && forall i | 0 <= i < |cmds| :: SealFits(cmds[i])
    ensures DecodeSealed(open, [MAGIC] + Frames(blobs)) == Unsealed(cmds, true)
    ensures Decode(EncodeAll(cmds)) == Log(cmds, [])
  {
    FramesRead(open, cmds, blobs, []);
    assert ([MAGIC] + Frames(blobs))[1..] == Frames(blobs) + [] && cmds + [] == cmds;
    LogRoundTrip(cmds);
  }

  /** The opposite case: an oversized CAS is written and acknowledged, but every
      replay stops there and refuses the log. */
  lemma OversizeSealedRecordIsRefused(open: Opener, cmds: seq<Command>, blobs: seq<Str>, cmd: Command, blob: Str,
                                      tail: Str)
    requires AllFit(cmds) && SealsAll(open, cmds, blobs) && forall i | 0 <= i < |cmds| :: SealFits(cmds[i])
    requires Fits(cmd) && Seals(open, cmd, blob) && !SealFits(cmd)
    ensures DecodeSealed(open, [MAGIC] + Frames(blobs) + Frame(blob) + tail) == Unsealed(cmds, false)
  {
    hide Frame, Frames, U32, ReadU32, Decode, Encode, Fits;
    var b := Frame(blob) + tail;
    SealedLength(open, cmd, blob);
    FrameHeader(blob, tail);
    assert DecodeFrames(open, b) == Unsealed([], false);
    FramesRead(open, cmds, blobs, b);
    assert ([MAGIC] + Frames(blobs) + Frame(blob) + tail)[1..] == Frames(blobs) + b;
    assert cmds + [] == cmds;
  }

  lemma CutFrame(open: Opener, blob: Str, n: nat)
    requires |blob| <= MAX_SEALED && n < |Frame(blob)|
    ensures DecodeFrames(open, Frame(blob)[..n]) == Unsealed([], n <= 4)
  {
    hide U32, ReadU32, Decode;
    var b := Frame(blob)[..n];
    if n >= 4 {
      assert b == U32(|blob|) + blob[..n - 4];
      U32RoundTrip(|blob|, blob[..n - 4]);
    }
  }

  /** A log cut `n` bytes into the frame that follows `cmds`: the complete
      records are applied, and the log is accepted exactly when the cut is in
      the length header or right after it; a cut inside a body is refused. */
  lemma CutSealedLog(open: Opener, cmds: seq<Command>, blobs: seq<Str>, cmd: Command, blob: Str, n: nat)
    requires AllFit(cmds) && SealsAll(open, cmds, blobs) && forall i | 0 <= i < |cmds| :: SealFits(cmds[i])
    requires Fits(cmd) && SealFits(cmd) && Seals(open, cmd, blob) && n < |Frame(blob)|
    ensures DecodeSealed(open, [MAGIC] + Frames(blobs) + Frame(blob)[..n]) == Unsealed(cmds, n <= 4)
  {
    hide Frames, U32, ReadU32, Encode, Decode, Fits;
    var b := Frame(blob)[..n];
    CutFrame(open, blob, n);
    FramesRead(open, cmds, blobs, b);
    assert ([MAGIC] + Frames(blobs) + b)[1..] == Frames(blobs) + b;
    assert cmds + [] == cmds;
  }

  // ---- appending after a torn header ----

  /** Where the blob of frame `j` starts. */
  function BodyStart(blobs: seq<Str>, j: nat): nat
    requires j <= |blobs|
  {
    |Frames(blobs[..j])| + 4
  }

  /** Authenticity: whatever opens in the rest of the file is a blob, and it lies
      where it was appended. `torn` is what was left of a header before `blobs`
      were appended. */
  ghost predicate Authentic(open: Opener, torn: Str, blobs: seq<Str>) {
    var file := torn + Frames(blobs);
    forall o, e | 0 <= o <= e <= |file| && open(file[o..e]).Some? ::
      exists j :: 0 <= j < |blobs| && o == |torn| + BodyStart(blobs, j)
  }

  lemma FirstFrame(blobs: seq<Str>)
    requires |blobs| > 0 && blobs[0] != []
    ensures |Frames(blobs)| > 4
  {
    hide U32;
  }

  lemma MisreadFrame(open: Opener, torn: Str, blobs: seq<Str>)
    requires 1 <= |torn| <= 4 && |blobs| > 0 && blobs[0] != [] && Authentic(open, torn, blobs)
    ensures DecodeFrames(open, torn + Frames(blobs)) == Unsealed([], false)
  {
    hide ReadU32, U32, Decode, Frames;
    var file := torn + Frames(blobs);
    FirstFrame(blobs);
    var len, body := ReadU32(file), file[4..];
    if len <= |body| {
      assert body[..len] == file[4..4 + len];
      assert open(file[4..4 + len]) == None;
    }
  }

  lemma NoFrames(open: Opener)
    ensures DecodeFrames(open, []) == Unsealed([], true)
  {}

  lemma SealedIsLong(open: Opener, cmd: Command, blob: Str)
    requires Seals(open, cmd, blob)
    ensures blob != []
  {}

  /** A tolerated torn header is not repaired. After complete records, `n` bytes
      of a header, and at least one more sealed record, the log is accepted if and
      only if nothing was torn; otherwise replay stops at the tear, and every
      record appended since is lost. */
  lemma AppendAfterTornHeader(open: Opener, cmds: seq<Command>, blobs: seq<Str>, lost: Str, n: nat,
                              later: seq<Command>, more: seq<Str>)
    requires AllFit(cmds) && SealsAll(open, cmds, blobs) && forall i | 0 <= i < |cmds| :: SealFits(cmds[i])
    requires AllFit(later) && SealsAll(open, later, more) && forall i | 0 <= i < |later| :: SealFits(later[i])
    requires |later| > 0 && n <= 4 && Authentic(open, Frame(lost)[..n], more)
    ensures DecodeSealed(open, [MAGIC] + Frames(blobs) + (Frame(lost)[..n] + Frames(more)))
            == Unsealed(if n == 0 then cmds + later else cmds, n == 0)
  {
    hide U32, ReadU32, Encode, Decode, Fits, Frames, DecodeFrames, SealFits, Authentic;
    var b := Frame(lost)[..n] + Frames(more);
    FramesRead(open, cmds, blobs, b);
    assert ([MAGIC] + Frames(blobs) + b)[1..] == Frames(blobs) + b;
    if n == 0 {
      FramesRead(open, later, more, []);
      NoFrames(open);
      assert b == Frames(more) + [] && later + [] == later;
    } else {
      SealedIsLong(open, later[0], more[0]);
      MisreadFrame(open, Frame(lost)[..n], more);
      assert cmds + [] == cmds;
    }
  }
}
