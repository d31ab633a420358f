/** The plaintext write-ahead log format: what Append* writes and what replay
    reads back, byte for byte. */
module Codec {
  import opened Basics
  import opened Commands
  import opened Decimal

  const MAX_FIELD := 0x10_0000
  const TWO32 := 0x1_0000_0000
  const TWO64 := 0x1_0000_0000_0000_0000

  // ---- big-endian integers ----

  /** AppendUint32(uint32(n)): the conversion wraps. */
  function U32(n: int): (b: Str)
    ensures |b| == 4
  {
    var m := n % TWO32;
    [m / 256 / 256 / 256, m / 256 / 256 % 256, m / 256 % 256, m % 256]
  }

  function Horner(a: int, b: int, c: int, d: int): int { ((a * 256 + b) * 256 + c) * 256 + d }

  function ReadU32(b: Str): (n: nat)
    requires |b| >= 4
    ensures n < TWO32
  {
    Horner(b[0], b[1], b[2], b[3])
  }

  lemma U32Wraps(n: int)
    ensures U32(n) == U32(n % TWO32)
  {
    assert n % TWO32 % TWO32 == n % TWO32;
  }

  lemma U32RoundTrip(n: int, tail: Str)
    ensures ReadU32(U32(n) + tail) == n % TWO32
  {
    var m := n % TWO32;
    var m1 := m / 256;
    var m2 := m1 / 256;
    assert m == m1 * 256 + m % 256 && m1 == m2 * 256 + m1 % 256 && m2 == m2 / 256 * 256 + m2 % 256;
    assert Horner(m2 / 256, m2 % 256, m1 % 256, m % 256) == m;
  }

  lemma HornerSplits(a: byte, b: byte, c: byte, d: byte)
    ensures var n := Horner(a, b, c, d);
            n % 256 == d && n / 256 % 256 == c && n / 256 / 256 % 256 == b && n / 256 / 256 / 256 == a
  {
    var n := Horner(a, b, c, d);
    assert n / 256 == (a as int * 256 + b) * 256 + c;
    assert n / 256 / 256 == a as int * 256 + b;
  }

  lemma ReadU32Canonical(b: Str)
    requires |b| >= 4
    ensures U32(ReadU32(b)) == b[..4]
  {
    HornerSplits(b[0], b[1], b[2], b[3]);
    assert ReadU32(b) % TWO32 == ReadU32(b);
  }

  /** AppendUint64(uint64(n)): two's complement, high half first. */
  function U64(n: int): (b: Str)
    ensures |b| == 8
  {
    U32(n % TWO64 / TWO32) + U32(n % TWO64)
  }

  function ReadI64(b: Str): (n: int)
    requires |b| >= 8
    ensures IsInt64(n)
  {
    var m := ReadU32(b) * TWO32 + ReadU32(b[4..]);
    if m > MAX_INT64 then m - TWO64 else m
  }

  lemma U64RoundTrip(n: int, tail: Str)
    requires IsInt64(n)
    ensures ReadI64(U64(n) + tail) == n
  {
    hide U32, ReadU32;
    var m := n % TWO64;
    var hi, lo, b := U32(m / TWO32), U32(m), U64(n) + tail;
    assert b == hi + (lo + tail) && b[4..] == lo + tail;
    U32RoundTrip(m / TWO32, lo + tail);
    U32RoundTrip(m, tail);
    assert ReadU32(b) == m / TWO32 && ReadU32(b[4..]) == m % TWO32;
  }

  lemma ReadI64Canonical(b: Str)
    requires |b| >= 8
    ensures U64(ReadI64(b)) == b[..8]
  {
    hide U32, ReadU32;
    var hi, lo := ReadU32(b), ReadU32(b[4..]);
    var n := ReadI64(b);
    assert n % TWO64 == hi * TWO32 + lo;
    ReadU32Canonical(b);
    ReadU32Canonical(b[4..]);
    assert b[..8] == b[..4] + b[4..][..4];
    assert n % TWO64 / TWO32 == hi && n % TWO64 % TWO32 == lo;
    U32Wraps(n % TWO64);
  }

  // ---- records ----

  const OP_PUT: byte := 1
  const OP_DELETE: byte := 2
  const OP_CLEAR: byte := 3
  const OP_INCR: byte := 4
  const OP_CAS: byte := 5
  const OP_EXPIRE: byte := 6

  function Field(s: Str): Str { U32(|s|) + s }

  function OpCode(cmd: Command): byte {
    match cmd
    case Put(_, _) => OP_PUT
    case Delete(_) => OP_DELETE
    case Clear => OP_CLEAR
    case Incr(_) => OP_INCR
    case CAS(_, _, _) => OP_CAS
    case Expire(_, _) => OP_EXPIRE
  }

  function Body(cmd: Command): Str {
    match cmd
    case Put(k, v) => Field(k) + Field(v)
    case Delete(k) => Field(k)
    case Clear => []
    case Incr(k) => Field(k)
    case CAS(k, o, n) => Field(k) + Field(o) + Field(n)
    case Expire(k, t) => Field(k) + U64(t)
  }

  /** The bytes one Append* call writes. */
  function Encode(cmd: Command): (b: Str)
    ensures |b| > 0
  {
    [OpCode(cmd)] + Body(cmd)
  }

  lemma Opened(cmd: Command, tail: Str)
    ensures (Encode(cmd) + tail)[0] == OpCode(cmd) && (Encode(cmd) + tail)[1..] == Body(cmd) + tail
  {
    hide OpCode, Body;
  }

  function EncodeAll(cmds: seq<Command>): Str {
    if cmds == [] then [] else Encode(cmds[0]) + EncodeAll(cmds[1..])
  }

  /** readString on the bytes still unread: the field and its size in the file. */
  function ReadString(b: Str): (r: Option<(Str, nat)>)
    ensures r.Some? ==> 4 <= r.value.1 <= |b|
  {
    if |b| < 4 then None
    else
      var len := ReadU32(b);
      if len > MAX_FIELD || len > |b| - 4 then None else Some((b[4..4 + len], 4 + len))
  }

  /** Reading one field and handing the rest on. */
  datatype Cut = Torn | Cut(field: Str, rest: Str)

  function TakeField(b: Str): Cut {
    match ReadString(b)
    case None => Torn
    case Some((s, n)) => Cut(s, b[n..])
  }

  /** applyRecord, as parsing: one record off the front, or nothing. */
  datatype Parsed = Bad | Record(cmd: Command, rest: Str)

  function ParsePut(f: Str): Parsed {
    match TakeField(f)
    case Torn => Bad
    case Cut(k, f1) =>
      match TakeField(f1)
      case Torn => Bad
      case Cut(v, f2) => Record(Put(k, v), f2)
  }

  function ParseCas(f: Str): Parsed {
    match TakeField(f)
    case Torn => Bad
    case Cut(k, f1) =>
      match TakeField(f1)
      case Torn => Bad
      case Cut(o, f2) =>
        match TakeField(f2)
        case Torn => Bad
        case Cut(n, f3) => Record(CAS(k, o, n), f3)
  }

  function ParseExpire(f: Str): Parsed {
    match TakeField(f)
    case Torn => Bad
    case Cut(k, f1) => if |f1| < 8 then Bad else Record(Expire(k, ReadI64(f1)), f1[8..])
  }

  function ParseKey(f: Str, incr: bool): Parsed {
    match TakeField(f)
    case Torn => Bad
    case Cut(k, f1) => Record(if incr then Incr(k) else Delete(k), f1)
  }

  function ParseRecord(b: Str): Parsed
    requires |b| > 0
  {
    var f := b[1..];
    if b[0] == OP_PUT then ParsePut(f)
    else if b[0] == OP_DELETE then ParseKey(f, false)
    else if b[0] == OP_CLEAR then Record(Clear, f)
    else if b[0] == OP_INCR then ParseKey(f, true)
    else if b[0] == OP_CAS then ParseCas(f)
    else if b[0] == OP_EXPIRE then ParseExpire(f)
    else Bad
  }

  /** What replay can read back: fields up to 2^20 bytes, int64 deadlines. */
  predicate Fits(cmd: Command) {
    match cmd
    case Put(k, v) => |k| <= MAX_FIELD && |v| <= MAX_FIELD
    case Delete(k) => |k| <= MAX_FIELD
    case Clear => true
    case Incr(k) => |k| <= MAX_FIELD
    case CAS(k, o, n) => |k| <= MAX_FIELD && |o| <= MAX_FIELD && |n| <= MAX_FIELD
    case Expire(k, t) => |k| <= MAX_FIELD && IsInt64(t)
  }

  predicate AllFit(cmds: seq<Command>) { forall i | 0 <= i < |cmds| :: Fits(cmds[i]) }

  lemma FieldRoundTrip(s: Str, tail: Str)
    requires |s| <= MAX_FIELD
    ensures TakeField(Field(s) + tail) == Cut(s, tail)
  {
    var b := Field(s) + tail;
    assert b == U32(|s|) + (s + tail);
    U32RoundTrip(|s|, s + tail);
    assert b[4..4 + |s|] == s && b[4 + |s|..] == tail;
  }

  lemma FieldCanonical(b: Str)
    requires TakeField(b).Cut?
    ensures var c := TakeField(b); |c.field| <= MAX_FIELD && b == Field(c.field) + c.rest && |c.rest| < |b|
  {
    ReadU32Canonical(b);
    var c := TakeField(b);
    assert b == b[..4] + b[4..4 + |c.field|] + b[4 + |c.field|..];
  }

  lemma PutRoundTrip(k: Str, v: Str, tail: Str)
    requires |k| <= MAX_FIELD && |v| <= MAX_FIELD
    ensures ParsePut(Field(k) + Field(v) + tail) == Record(Put(k, v), tail)
  {
    assert Field(k) + Field(v) + tail == Field(k) + (Field(v) + tail);
    FieldRoundTrip(k, Field(v) + tail);
    FieldRoundTrip(v, tail);
  }

  lemma CasRoundTrip(k: Str, o: Str, n: Str, tail: Str)
    requires |k| <= MAX_FIELD && |o| <= MAX_FIELD && |n| <= MAX_FIELD
    ensures ParseCas(Field(k) + Field(o) + Field(n) + tail) == Record(CAS(k, o, n), tail)
  {
    hide Field, TakeField;
    assert Field(k) + Field(o) + Field(n) + tail == Field(k) + (Field(o) + (Field(n) + tail));
    FieldRoundTrip(k, Field(o) + (Field(n) + tail));
    FieldRoundTrip(o, Field(n) + tail);
    FieldRoundTrip(n, tail);
  }

  lemma ExpireRoundTrip(k: Str, t: int, tail: Str)
    requires |k| <= MAX_FIELD && IsInt64(t)
    ensures ParseExpire(Field(k) + U64(t) + tail) == Record(Expire(k, t), tail)
  {
    assert Field(k) + U64(t) + tail == Field(k) + (U64(t) + tail);
    FieldRoundTrip(k, U64(t) + tail);
    U64RoundTrip(t, tail);
    assert (U64(t) + tail)[8..] == tail;
  }

  lemma KeyRoundTrip(k: Str, incr: bool, tail: Str)
    requires |k| <= MAX_FIELD
    ensures ParseKey(Field(k) + tail, incr) == Record(if incr then Incr(k) else Delete(k), tail)
  {
    FieldRoundTrip(k, tail);
  }

  /** A record that fits reads back as itself, whatever follows it. */
  lemma RecordRoundTrip(cmd: Command, tail: Str)
    requires Fits(cmd)
    ensures ParseRecord(Encode(cmd) + tail) == Record(cmd, tail)
  {
    hide Encode, Field, TakeField, U64, ParsePut, ParseCas, ParseExpire, ParseKey;
    Opened(cmd, tail);
    match cmd {
      case Put(k, v) => PutRoundTrip(k, v, tail);
      case Delete(k) => KeyRoundTrip(k, false, tail);
      case Clear => assert [] + tail == tail;
      case Incr(k) => KeyRoundTrip(k, true, tail);
      case CAS(k, o, n) => CasRoundTrip(k, o, n, tail);
      case Expire(k, t) => ExpireRoundTrip(k, t, tail);
    }
  }

  lemma PutCanonical(f: Str)
    requires ParsePut(f).Record?
    ensures var r := ParsePut(f); Fits(r.cmd) && OpCode(r.cmd) == OP_PUT && f == Body(r.cmd) + r.rest
  {
    hide Field, TakeField;
    FieldCanonical(f);
    FieldCanonical(TakeField(f).rest);
  }

  lemma CasCanonical(f: Str)
    requires ParseCas(f).Record?
    ensures var r := ParseCas(f); Fits(r.cmd) && OpCode(r.cmd) == OP_CAS && f == Body(r.cmd) + r.rest
  {
    hide Field, TakeField;
    FieldCanonical(f);
    FieldCanonical(TakeField(f).rest);
    FieldCanonical(TakeField(TakeField(f).rest).rest);
    var (c, r) := (ParseCas(f).cmd, ParseCas(f).rest);
    assert f == Field(c.key) + (Field(c.old_) + (Field(c.new_) + r));
  }

  lemma ExpireCanonical(f: Str)
    requires ParseExpire(f).Record?
    ensures var r := ParseExpire(f); Fits(r.cmd) && OpCode(r.cmd) == OP_EXPIRE && f == Body(r.cmd) + r.rest
  {
    hide Field, TakeField, U64, ReadI64;
    FieldCanonical(f);
    var f1 := TakeField(f).rest;
    ReadI64Canonical(f1);
    assert f1 == f1[..8] + f1[8..];
  }

  lemma KeyCanonical(f: Str, incr: bool)
    requires ParseKey(f, incr).Record?
    ensures var r := ParseKey(f, incr);
            Fits(r.cmd) && OpCode(r.cmd) == (if incr then OP_INCR else OP_DELETE) && f == Body(r.cmd) + r.rest
  {
    FieldCanonical(f);
  }

  /** Whatever parses is the encoding of what it parses to: no two byte strings
      mean the same record. */
  lemma RecordCanonical(b: Str)
    requires |b| > 0 && ParseRecord(b).Record?
    ensures var r := ParseRecord(b); Fits(r.cmd) && b == Encode(r.cmd) + r.rest
  {
    hide Field, TakeField, U64, ParsePut, ParseCas, ParseExpire, ParseKey;
    var f, r := b[1..], ParseRecord(b);
    if b[0] == OP_PUT { PutCanonical(f); }
    else if b[0] == OP_DELETE { KeyCanonical(f, false); }
    else if b[0] == OP_INCR { KeyCanonical(f, true); }
    else if b[0] == OP_CAS { CasCanonical(f); }
    else if b[0] == OP_EXPIRE { ExpireCanonical(f); }
    assert b == [b[0]] + f && f == Body(r.cmd) + r.rest && OpCode(r.cmd) == b[0];
    assert [b[0]] + (Body(r.cmd) + r.rest) == [b[0]] + Body(r.cmd) + r.rest;
  }

  // ---- whole logs ----

  /** The records replay applies, and the bytes it is left with. */
  datatype Log = Log(cmds: seq<Command>, rest: Str)

  function Decode(b: Str): Log
    decreases |b|
  {
    if b == [] then Log([], [])
    else match ParseRecord(b)
      case Bad => Log([], b)
      case Record(cmd, rest) =>
        RecordCanonical(b);
        var l := Decode(rest);
        Log([cmd] + l.cmds, l.rest)
  }

  /** Replay applies the longest decodable prefix, whole records only: the bytes
      are the encoding of what was applied plus a rest that starts no record. */
  lemma {:induction false} DecodeIsExact(b: Str)
    ensures var l := Decode(b);
            && AllFit(l.cmds) && b == EncodeAll(l.cmds) + l.rest
            && (l.rest == [] || ParseRecord(l.rest) == Bad)
    decreases |b|
  {
    hide Encode, ParseRecord, Fits;
    if b != [] && ParseRecord(b).Record? {
      var r := ParseRecord(b);
      RecordCanonical(b);
      DecodeIsExact(r.rest);
      var l := Decode(r.rest);
      assert ([r.cmd] + l.cmds)[1..] == l.cmds;
    }
  }

  lemma {:induction false} DecodeAfter(cmds: seq<Command>, tail: Str)
    requires AllFit(cmds)
    ensures Decode(EncodeAll(cmds) + tail) == Log(cmds + Decode(tail).cmds, Decode(tail).rest)
  {
    hide Encode, ParseRecord, Fits;
    if cmds == [] {
      assert EncodeAll(cmds) + tail == tail;
    } else {
      var more := EncodeAll(cmds[1..]) + tail;
      assert EncodeAll(cmds) + tail == Encode(cmds[0]) + more;
      RecordRoundTrip(cmds[0], more);
      DecodeAfter(cmds[1..], tail);
      assert cmds == [cmds[0]] + cmds[1..];
    }
  }

  /** Any sequence of operations within the field bound replays to exactly those
      operations, with nothing left over. */
  lemma LogRoundTrip(cmds: seq<Command>)
    requires AllFit(cmds)
    ensures Decode(EncodeAll(cmds)) == Log(cmds, [])
  {
    hide Encode, ParseRecord, Fits;
    DecodeAfter(cmds, []);
    assert EncodeAll(cmds) + [] == EncodeAll(cmds) && cmds + [] == cmds;
  }

  /** No longer sequence of records could have been applied: any fitting log
      whose encoding begins the bytes is a prefix of what replay applied. */
  lemma DecodeIsLongest(b: Str, cmds: seq<Command>)
    requires AllFit(cmds) && EncodeAll(cmds) <= b
    ensures cmds <= Decode(b).cmds
  {
    hide Encode, ParseRecord, Fits;
    var tail := b[|EncodeAll(cmds)|..];
    assert b == EncodeAll(cmds) + tail;
    DecodeAfter(cmds, tail);
  }

  lemma {:induction false} EncodeAllAppend(a: seq<Command>, b: seq<Command>)
    ensures EncodeAll(a + b) == EncodeAll(a) + EncodeAll(b)
  {
    hide Encode;
    if a == [] {
      assert a + b == b;
    } else {
      EncodeAllAppend(a[1..], b);
      assert (a + b)[1..] == a[1..] + b;
    }
  }

  /** Size in bytes of the first `j` records. */
  function SizeOf(cmds: seq<Command>, j: nat): nat
    requires j <= |cmds|
  {
    |EncodeAll(cmds[..j])|
  }

  lemma FirstRecords(cmds: seq<Command>, j: nat)
    requires j <= |cmds|
    ensures SizeOf(cmds, j) <= |EncodeAll(cmds)| && EncodeAll(cmds)[..SizeOf(cmds, j)] == EncodeAll(cmds[..j])
  {
    hide Encode, EncodeAll;
    EncodeAllAppend(cmds[..j], cmds[j..]);
    assert cmds == cmds[..j] + cmds[j..];
  }

  lemma CutIsMaximal(cmds: seq<Command>, n: nat, j: nat)
    requires AllFit(cmds) && n <= |EncodeAll(cmds)| && j <= |cmds| && SizeOf(cmds, j) <= n
    ensures cmds[..j] <= Decode(EncodeAll(cmds)[..n]).cmds
  {
    hide Encode, EncodeAll, Decode, Fits;
    FirstRecords(cmds, j);
    assert EncodeAll(cmds)[..n][..SizeOf(cmds, j)] == EncodeAll(cmds[..j]);
    DecodeIsLongest(EncodeAll(cmds)[..n], cmds[..j]);
  }

  lemma CutIsPrefix(cmds: seq<Command>, n: nat)
    requires AllFit(cmds) && n <= |EncodeAll(cmds)|
    ensures var l := Decode(EncodeAll(cmds)[..n]); l.cmds <= cmds && SizeOf(cmds, |l.cmds|) == n - |l.rest|
  {
    hide Encode, EncodeAll, Decode, Fits;
    var whole, b := EncodeAll(cmds), EncodeAll(cmds)[..n];
    var l := Decode(b);
    DecodeIsExact(b);
    LogRoundTrip(cmds);
    assert EncodeAll(l.cmds) <= whole;
    DecodeIsLongest(whole, l.cmds);
    assert cmds[..|l.cmds|] == l.cmds;
  }

  lemma MoreRecordsMoreBytes(cmds: seq<Command>, i: nat, j: nat)
    requires i < j <= |cmds|
    ensures SizeOf(cmds, i) < SizeOf(cmds, j)
  {
    hide Encode;
    assert cmds[..j] == cmds[..i] + cmds[i..j];
    EncodeAllAppend(cmds[..i], cmds[i..j]);
  }

  /** A log cut after `n` bytes reads back as its complete records, as many as
      fit, and is accepted exactly when the cut falls between two records. */
  lemma CutLog(cmds: seq<Command>, n: nat)
    requires AllFit(cmds) && n <= |EncodeAll(cmds)|
    ensures var l := Decode(EncodeAll(cmds)[..n]);
            && l.cmds <= cmds && SizeOf(cmds, |l.cmds|) <= n
            && (forall j | 0 <= j <= |cmds| && SizeOf(cmds, j) <= n :: j <= |l.cmds|)
            && (l.rest == [] <==> exists j :: 0 <= j <= |cmds| && SizeOf(cmds, j) == n)
  {
    hide EncodeAll, Decode, Fits, SizeOf;
    var l := Decode(EncodeAll(cmds)[..n]);
    CutIsPrefix(cmds, n);
    forall j | 0 <= j <= |cmds| && SizeOf(cmds, j) <= n ensures j <= |l.cmds| {
      CutIsMaximal(cmds, n, j);
    }
    if j :| 0 <= j <= |cmds| && SizeOf(cmds, j) == n && l.rest != [] {
      MoreRecordsMoreBytes(cmds, j, |l.cmds|);
      assert false;
    }
  }

  /** Lengths a 32-bit header can state, deadlines an int64 can hold. */
  predicate Representable(cmd: Command) {
    match cmd
    case Put(k, v) => |k| < TWO32 && |v| < TWO32
    case Delete(k) => |k| < TWO32
    case Clear => true
    case Incr(k) => |k| < TWO32
    case CAS(k, o, n) => |k| < TWO32 && |o| < TWO32 && |n| < TWO32
    case Expire(k, t) => |k| < TWO32 && IsInt64(t)
  }

  lemma OversizeFieldIsRefused(s: Str, tail: Str)
    requires MAX_FIELD < |s| < TWO32
    ensures TakeField(Field(s) + tail) == Torn
  {
    assert Field(s) + tail == U32(|s|) + (s + tail);
    U32RoundTrip(|s|, s + tail);
  }

  lemma FieldTaken(s: Str, tail: Str)
    requires |s| < TWO32
    ensures TakeField(Field(s) + tail) == if |s| <= MAX_FIELD then Cut(s, tail) else Torn
  {
    if |s| <= MAX_FIELD { FieldRoundTrip(s, tail); } else { OversizeFieldIsRefused(s, tail); }
  }

  lemma OversizePutIsRefused(k: Str, v: Str, tail: Str)
    requires |k| < TWO32 && |v| < TWO32 && !Fits(Put(k, v))
    ensures ParsePut(Field(k) + Field(v) + tail) == Bad
  {
    hide Field, TakeField;
    assert Field(k) + Field(v) + tail == Field(k) + (Field(v) + tail);
    FieldTaken(k, Field(v) + tail);
    FieldTaken(v, tail);
  }

  lemma OversizeCasIsRefused(k: Str, o: Str, n: Str, tail: Str)
    requires |k| < TWO32 && |o| < TWO32 && |n| < TWO32 && !Fits(CAS(k, o, n))
    ensures ParseCas(Field(k) + Field(o) + Field(n) + tail) == Bad
  {
    hide Field, TakeField;
    assert Field(k) + Field(o) + Field(n) + tail == Field(k) + (Field(o) + (Field(n) + tail));
    FieldTaken(k, Field(o) + (Field(n) + tail));
    FieldTaken(o, Field(n) + tail);
    FieldTaken(n, tail);
  }

  lemma OversizeKeyIsRefused(k: Str, tail: Str)
    requires MAX_FIELD < |k| < TWO32
    ensures ParseExpire(Field(k) + tail) == Bad && forall incr :: ParseKey(Field(k) + tail, incr) == Bad
  {
    OversizeFieldIsRefused(k, tail);
  }

  /** A record with a field over the bound is refused, whatever follows it. */
  lemma OversizeRecordIsRefused(cmd: Command, tail: Str)
    requires Representable(cmd) && !Fits(cmd)
    ensures ParseRecord(Encode(cmd) + tail) == Bad
  {
    hide Encode, Field, TakeField, U64, ParsePut, ParseCas, ParseExpire, ParseKey;
    Opened(cmd, tail);
    match cmd {
      case Put(k, v) => OversizePutIsRefused(k, v, tail);
      case Delete(k) => OversizeKeyIsRefused(k, tail);
      case Incr(k) => OversizeKeyIsRefused(k, tail);
      case CAS(k, o, n) => OversizeCasIsRefused(k, o, n, tail);
      case Expire(k, t) =>
        assert Field(k) + U64(t) + tail == Field(k) + (U64(t) + tail);
        OversizeKeyIsRefused(k, U64(t) + tail);
    }
  }

  /** How many records come before the first that replay cannot read. */
  function FitPrefix(cmds: seq<Command>): (n: nat)
    ensures n <= |cmds| && AllFit(cmds[..n]) && (n < |cmds| ==> !Fits(cmds[n]))
  {
    if cmds == [] || !Fits(cmds[0]) then 0
    else
      var n := FitPrefix(cmds[1..]);
      assert cmds[..n + 1] == [cmds[0]] + cmds[1..][..n];
      n + 1
  }

  lemma ReadsUpTo(cmds: seq<Command>, tail: Str)
    requires (forall i | 0 <= i < |cmds| :: Representable(cmds[i])) && FitPrefix(cmds) < |cmds|
    ensures Decode(EncodeAll(cmds) + tail) == Log(cmds[..FitPrefix(cmds)], EncodeAll(cmds[FitPrefix(cmds)..]) + tail)
  {
    hide Encode, Fits, Representable, ParseRecord, FitPrefix;
    var n := FitPrefix(cmds);
    var bad, more := cmds[n], EncodeAll(cmds[n + 1..]) + tail;
    assert cmds == cmds[..n] + cmds[n..] && cmds[n..] == [bad] + cmds[n + 1..];
    EncodeAllAppend(cmds[..n], cmds[n..]);
    assert EncodeAll(cmds[n..]) + tail == Encode(bad) + more by {
      assert cmds[n..][1..] == cmds[n + 1..];
      assert Encode(bad) + EncodeAll(cmds[n + 1..]) + tail == Encode(bad) + more;
    }
    OversizeRecordIsRefused(bad, more);
    assert Decode(Encode(bad) + more) == Log([], Encode(bad) + more);
    DecodeAfter(cmds[..n], Encode(bad) + more);
    assert EncodeAll(cmds) + tail == EncodeAll(cmds[..n]) + (EncodeAll(cmds[n..]) + tail);
    assert cmds[..n] + [] == cmds[..n];
  }

  /** The bound is exact, for whole logs: replay reads a log up to the first
      record with a field over 2^20 bytes and refuses everything from there on,
      whatever follows; so a log reads back as itself if and only if every field
      in it is within the bound. */
  lemma LogReadsBackExactly(cmds: seq<Command>, tail: Str)
    requires forall i | 0 <= i < |cmds| :: Representable(cmds[i])
    ensures var n := FitPrefix(cmds);
            n < |cmds| ==> Decode(EncodeAll(cmds) + tail) == Log(cmds[..n], EncodeAll(cmds[n..]) + tail)
    ensures Decode(EncodeAll(cmds)) == Log(cmds, []) <==> AllFit(cmds)
  {
    hide Encode, Fits, Representable, ParseRecord;
    if AllFit(cmds) {
      LogRoundTrip(cmds);
    } else {
      ReadsUpTo(cmds, tail);
      ReadsUpTo(cmds, []);
      assert EncodeAll(cmds) + [] == EncodeAll(cmds);
    }
  }
}
