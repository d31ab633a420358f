/** The log format in literal numbers: operation codes, byte order, field layout, and
    the bounds replay puts on them. */
module WireFormat {
  import opened Basics
  import opened Commands
  import opened Decimal
  import opened Codec
  import opened Framing

  /** Four bytes, most significant first. */
  function Big4(n: int): Str
    requires 0 <= n < 4294967296
  {
    [n / 16777216, n / 65536 % 256, n / 256 % 256, n % 256]
  }

  lemma U32IsBig4(n: int)
    requires 0 <= n < 4294967296
    ensures U32(n) == Big4(n)
  {
    assert n / 256 / 256 == n / 65536 && n / 256 / 256 / 256 == n / 16777216;
  }

  /** Eight bytes, most significant first, negative numbers in two's complement. */
  function Big8(n: int): Str
    requires -9223372036854775808 <= n < 9223372036854775808
  {
    var m := if n < 0 then n + 18446744073709551616 else n;
    Big4(m / 4294967296) + Big4(m % 4294967296)
  }

  lemma U64IsBig8(n: int)
    requires -9223372036854775808 <= n < 9223372036854775808
    ensures U64(n) == Big8(n)
  {
    hide U32, Big4;
    var m := n % TWO64;
    assert m == if n < 0 then n + 18446744073709551616 else n;
    U32IsBig4(m / TWO32);
    U32Wraps(m);
    U32IsBig4(m % TWO32);
  }

  /** A field is its length and its bytes. */
  function Sized(s: Str): Str
    requires |s| < 4294967296
  {
    Big4(|s|) + s
  }

  ghost predicate Addressable(cmd: Command) {
    match cmd
    case Put(k, v) => |k| < 4294967296 && |v| < 4294967296
    case Delete(k) => |k| < 4294967296
    case Clear => true
    case Incr(k) => |k| < 4294967296
    case CAS(k, o, n) => |k| < 4294967296 && |o| < 4294967296 && |n| < 4294967296
    case Expire(k, t) => |k| < 4294967296 && -9223372036854775808 <= t < 9223372036854775808
  }

  /** Every record, byte for byte. */
  lemma RecordLayout(cmd: Command)
    requires Addressable(cmd)
    ensures match cmd
            case Put(k, v) => Encode(cmd) == [1] + Sized(k) + Sized(v)
            case Delete(k) => Encode(cmd) == [2] + Sized(k)
            case Clear => Encode(cmd) == [3]
            case Incr(k) => Encode(cmd) == [4] + Sized(k)
            case CAS(k, o, n) => Encode(cmd) == [5] + Sized(k) + Sized(o) + Sized(n)
            case Expire(k, t) => Encode(cmd) == [6] + Sized(k) + Big8(t)
  {
    hide U32, Big4, U64, Big8;
    match cmd {
      case Put(k, v) => U32IsBig4(|k|); U32IsBig4(|v|);
      case Delete(k) => U32IsBig4(|k|);
      case Clear =>
      case Incr(k) => U32IsBig4(|k|);
      case CAS(k, o, n) => U32IsBig4(|k|); U32IsBig4(|o|); U32IsBig4(|n|);
      case Expire(k, t) => U32IsBig4(|k|); U64IsBig8(t);
    }
  }

  /** A record of an unknown operation is refused. */
  lemma UnknownOperation(b: Str)
    requires |b| > 0 && !(1 <= b[0] <= 6)
    ensures ParseRecord(b) == Bad && Decode(b) == Log([], b)
  {}

  /** Replay reads a field of up to 2^20 bytes and no longer one. */
  lemma FieldLimit(s: Str, tail: Str)
    requires |s| < 4294967296
    ensures ReadString(Sized(s) + tail) == if |s| <= 1048576 then Some((s, 4 + |s|)) else None
  {
    hide U32, ReadU32, Big4;
    U32IsBig4(|s|);
    U32RoundTrip(|s|, s + tail);
    assert Sized(s) + tail == U32(|s|) + (s + tail);
    assert (Sized(s) + tail)[4..4 + |s|] == s;
  }

  /** An encrypted log is one byte 0xF0 and then frames: a length and that many bytes. */
  lemma FrameLayout(blobs: seq<Str>, blob: Str)
    requires |blob| < 4294967296
    ensures Frame(blob) == Big4(|blob|) + blob && [MAGIC] == [240]
    ensures Frames([blob] + blobs) == Frame(blob) + Frames(blobs)
  {
    U32IsBig4(|blob|);
    assert ([blob] + blobs)[1..] == blobs;
  }

  /** A sealed record, 28 bytes longer than the plain one, is read back if and only if
      its frame is within the bound. */
  lemma FrameLimit(open: Opener, cmd: Command, blob: Str)
    requires Fits(cmd) && open(blob) == Some(Encode(cmd)) && |blob| == |Encode(cmd)| + 28
    ensures |blob| < 4294967296
    ensures DecodeSealed(open, [240] + Big4(|blob|) + blob)
            == if |blob| <= 2097216 then Unsealed([cmd], true) else Unsealed([], false)
  {
    hide U32, ReadU32, Big4, Encode, Decode, Fits;
    SealedLength(open, cmd, blob);
    U32IsBig4(|blob|);
    var b := [240] + Big4(|blob|) + blob;
    assert b[1..] == Frame(blob) + [];
    if |blob| <= 2097216 {
      FrameRead(open, cmd, blob, []);
      NoFrames(open);
      assert [cmd] + [] == [cmd];
    } else {
      FrameHeader(blob, []);
    }
  }
}
