/** The store's moving parts: the log file as bytes, replay onto a MemStore, the
    group-commit batcher, and compaction; each proved against `Disk`. */
module DiskObject {
  import opened Basics
  import opened Commands
  import opened Store
  import opened Expiry
  import opened Replay
  import opened Codec
  import opened Framing
  import opened Disk
  import opened MemObject

  const MAX_BATCH := 1000

  /** What reaches the batch loop: queued writes and flush-timer ticks. */
  datatype Event = Queued(r: Request) | Timer

  ghost function Requests(events: seq<Event>): seq<Request> {
    if events == [] then []
    else
      var e := events[|events| - 1];
      Requests(events[..|events| - 1]) + if e.Queued? then [e.r] else []
  }

  predicate Single(cmd: Command) { cmd.Incr? || cmd.CAS? || cmd.Expire? }

  ghost predicate Batchable(reqs: seq<Request>) { forall i | 0 <= i < |reqs| :: !Single(reqs[i].cmd) }

  ghost function CmdsOf(reqs: seq<Request>): seq<Command> {
    seq(|reqs|, i requires 0 <= i < |reqs| => reqs[i].cmd)
  }

  lemma ExecBatchable(s: Disk, r: Request)
    requires !Single(r.cmd)
    ensures var (mem, reply) := Apply(s.mem, r.cmd, r.now);
            ExecOne(s, r) == (s.(mem := mem, wal := s.wal + [r.cmd]), reply)
  {}

  lemma ExecNothing(s: Disk)
    ensures ExecAll(s, []) == (s, [])
  {}

  lemma ExecAllOneMore(s: Disk, reqs: seq<Request>, r: Request)
    ensures var (s1, replies) := ExecAll(s, reqs);
            var (s2, reply) := ExecOne(s1, r);
            ExecAll(s, reqs + [r]) == (s2, replies + [reply])
  {
    hide ExecOne;
    assert (reqs + [r])[..|reqs|] == reqs;
  }

  lemma ApplyOneMore(d: Data, cmds: seq<Command>, cmd: Command, now: int)
    ensures ApplyAll(d, cmds + [cmd], now) == Apply(ApplyAll(d, cmds, now), cmd, now).0
  {
    assert (cmds + [cmd])[..|cmds|] == cmds;
  }

  lemma ApplyNothing(d: Data, now: int)
    ensures ApplyAll(d, [], now) == d
  {}

  /** replayPlain: apply record after record until the bytes run out or stop
      making sense. */
  method ReplayPlain(bytes: Str, m: MemStore, now: int) returns (ok: bool)
    modifies m
    ensures m.data == ApplyAll(old(m.data), Decode(bytes).cmds, now)
    ensures ok <==> Decode(bytes).rest == []
  {
    hide Apply, ApplyAll, ParseRecord, Encode, Fits;
    ApplyNothing(m.data, now);
    var rest := bytes;
    ghost var done: seq<Command> := [];
    while |rest| > 0
      invariant Decode(bytes) == Log(done + Decode(rest).cmds, Decode(rest).rest)
      invariant m.data == ApplyAll(old(m.data), done, now)
      decreases |rest|
    {
      var p := ParseRecord(rest);
      if p.Bad? {
        assert done + [] == done;
        return false;
      }
      RecordCanonical(rest);
      ApplyOneMore(old(m.data), done, p.cmd, now);
      var _ := ApplyTo(m, p.cmd, now);
      assert done + ([p.cmd] + Decode(p.rest).cmds) == (done + [p.cmd]) + Decode(p.rest).cmds;
      done := done + [p.cmd];
      rest := p.rest;
    }
    assert done + [] == done;
    return true;
  }

  /** replayEncrypted: open blob after blob and replay the records inside. */
  method ReplaySealed(bytes: Str, open: Opener, m: MemStore, now: int) returns (ok: bool)
    modifies m
    ensures var u := DecodeSealed(open, bytes);
            m.data == ApplyAll(old(m.data), u.cmds, now) && ok == u.ok
  {
    hide Apply, ApplyAll, Decode, ReadU32;
    ApplyNothing(m.data, now);
    if bytes == [] { return true; }
    if bytes[0] != MAGIC { return false; }
    var rest := bytes[1..];
    ghost var done: seq<Command> := [];
    while |rest| >= 4
      invariant DecodeSealed(open, bytes) == Unsealed(done + DecodeFrames(open, rest).cmds, DecodeFrames(open, rest).ok)
      invariant m.data == ApplyAll(old(m.data), done, now)
      decreases |rest|
    {
      var len, body := ReadU32(rest), rest[4..];
      assert done + [] == done;
      if len > MAX_SEALED { return false; }
      if |body| < len { return body == []; }
      var plain := open(body[..len]);
      if plain == None { return false; }
      ghost var l := Decode(plain.value);
      ApplyAllAppend(old(m.data), done, l.cmds, now);
      ok := ReplayPlain(plain.value, m, now);
      if !ok { return false; }
      assert done + (l.cmds + DecodeFrames(open, body[len..]).cmds) == (done + l.cmds) + DecodeFrames(open, body[len..]).cmds;
      done := done + l.cmds;
      rest := body[len..];
    }
    assert done + [] == done;
    return true;
  }

  /** openDiskStore over what survived on disk; null stands for the error. */
  method OpenDiskStore(saved: Data, bytes: Str, now: int) returns (s: DiskStore?)
    ensures s == null <==> Reopen(saved, bytes, now) == None
    ensures s != null ==> fresh(s) && fresh(s.mem) && s.Valid()
                          && s.View() == Disk(Reopen(saved, bytes, now).value, saved, Decode(bytes).cmds)
  {
    var m := new MemStore();
    m.data := saved;
    var ok := ReplayPlain(bytes, m, now);
    if !ok { return null; }
    s := new DiskStore(m, saved, bytes);
  }

  /** The same over an encrypted log: what is recovered into memory. */
  method RecoverSealed(saved: Data, bytes: Str, open: Opener, now: int) returns (m: MemStore?)
    ensures m == null <==> !DecodeSealed(open, bytes).ok
    ensures m != null ==> fresh(m) && m.data == ApplyAll(saved, DecodeSealed(open, bytes).cmds, now)
  {
    hide DecodeSealed, ApplyAll;
    m := new MemStore();
    m.data := saved;
    var ok := ReplaySealed(bytes, open, m, now);
    if !ok { m := null; }
  }

  class DiskStore {
    const mem: MemStore
    var snapshot: Data
    var wal: Str                        // the log file
    ghost var records: seq<Command>     // the records in it

    ghost predicate Valid()
      reads this, mem
    {
      wal == EncodeAll(records)
    }

    ghost function View(): Disk
      reads this, mem
    {
      Disk(mem.data, snapshot, records)
    }

    constructor (m: MemStore, saved: Data, bytes: Str)
      requires Decode(bytes).rest == []
      ensures mem == m && snapshot == saved && wal == bytes && records == Decode(bytes).cmds && Valid()
    {
      mem, snapshot, wal := m, saved, bytes;
      records := Decode(bytes).cmds;
      DecodeIsExact(bytes);
      assert EncodeAll(Decode(bytes).cmds) + [] == EncodeAll(Decode(bytes).cmds);
    }

    method AppendRecord(cmd: Command)
      requires Valid()
      modifies this`wal, this`records
      ensures Valid() && records == old(records) + [cmd]
    {
      hide Encode;
      EncodeAllAppend(records, [cmd]);
      assert EncodeAll([cmd]) == Encode(cmd) + EncodeAll([]) == Encode(cmd);
      wal := wal + Encode(cmd);
      records := records + [cmd];
    }

    method AppendBatch(batch: seq<Request>)
      requires Valid()
      modifies this`wal, this`records
      ensures Valid() && records == old(records) + CmdsOf(batch)
    {
      hide EncodeAll;
      for i := 0 to |batch|
        invariant Valid() && records == old(records) + CmdsOf(batch)[..i]
      {
        assert CmdsOf(batch)[..i + 1] == CmdsOf(batch)[..i] + [batch[i].cmd];
        AppendRecord(batch[i].cmd);
      }
      assert CmdsOf(batch)[..|batch|] == CmdsOf(batch);
    }

    method ApplyBatch(batch: seq<Request>, ghost start: Disk) returns (replies: seq<Reply>)
      requires Batchable(batch) && start.mem == mem.data
      modifies mem
      ensures var (s, r) := ExecAll(start, batch);
              mem.data == s.mem && s.snap == start.snap && s.wal == start.wal + CmdsOf(batch) && replies == r
    {
      hide Apply, ExecOne;
      replies := [];
      assert CmdsOf(batch)[..0] == [] && batch[..0] == [] && start.wal + [] == start.wal;
      for i := 0 to |batch|
        invariant var (s, r) := ExecAll(start, batch[..i]);
                  mem.data == s.mem && s.snap == start.snap && s.wal == start.wal + CmdsOf(batch)[..i] && replies == r
      {
        ghost var s := ExecAll(start, batch[..i]).0;
        assert batch[..i + 1][..i] == batch[..i] && batch[..i + 1][i] == batch[i];
        ExecBatchable(s, batch[i]);
        var r := ApplyTo(mem, batch[i].cmd, batch[i].now);
        assert start.wal + CmdsOf(batch)[..i] + [batch[i].cmd] == start.wal + CmdsOf(batch)[..i + 1];
        replies := replies + [r];
      }
      assert batch[..|batch|] == batch && CmdsOf(batch)[..|batch|] == CmdsOf(batch);
    }

    /** writeBatch: append every record, sync once, then apply in order. The
        effect and the replies are those of serving the requests one by one. */
    method WriteBatch(batch: seq<Request>) returns (replies: seq<Reply>)
      requires Valid() && Batchable(batch)
      modifies this`wal, this`records, mem
      ensures Valid() && (View(), replies) == ExecAll(old(View()), batch)
    {
      hide ExecAll, EncodeAll, CmdsOf;
      AppendBatch(batch);
      replies := ApplyBatch(batch, old(View()));
    }

    /** writeSingle: a request whose outcome depends on the current state. */
    method WriteSingle(r: Request) returns (reply: Reply)
      requires Valid() && Single(r.cmd)
      modifies this`wal, this`records, mem
      ensures Valid() && (View(), reply) == ExecOne(old(View()), r)
    {
      match r.cmd {
        case Incr(k) =>
          AppendRecord(r.cmd);
          reply := mem.Incr(k, r.now);
        case CAS(k, o, n) =>
          var cur := mem.Get(k, r.now, r.now);
          if cur.Failed? { return Failed(NotFound); }
          if cur.value != o { return Swapped(false); }
          AppendRecord(r.cmd);
          mem.Put(k, n);
          reply := Swapped(true);
        case Expire(k, t) =>
          var cur := mem.Get(k, r.now, r.now);
          if cur.Failed? { return Failed(NotFound); }
          AppendRecord(r.cmd);
          reply := mem.Expire(k, t, r.now);
      }
    }

    /** batchLoop until its channel closes: for every sequence of requests and
        every placement of timer ticks and size limits, file, memory and replies
        are those of one-at-a-time execution in queue order. */
    method BatchLoop(events: seq<Event>) returns (replies: seq<Reply>)
      requires Valid()
      modifies this`wal, this`records, mem
      ensures Valid() && (View(), replies) == ExecAll(old(View()), Requests(events))
    {
      hide ExecAll, ExecOne, EncodeAll;
      var batch: seq<Request> := [];
      replies := [];
      ExecNothing(View());
      ghost var served: seq<Request> := [];
      for i := 0 to |events|
        invariant Valid() && Batchable(batch)
        invariant served + batch == Requests(events[..i])
        invariant (View(), replies) == ExecAll(old(View()), served)
      {
        assert events[..i + 1][..i] == events[..i] && events[..i + 1][i] == events[i];
        var flush := true;
        if events[i].Queued? && !Single(events[i].r.cmd) {
          batch := batch + [events[i].r];
          flush := |batch| >= MAX_BATCH;
          assert served + batch == Requests(events[..i + 1]);
        }
        if flush {
          ExecAllAppend(old(View()), served, batch);
          var r := WriteBatch(batch);
          replies := replies + r;
          served, batch := served + batch, [];
        }
        if events[i].Queued? && Single(events[i].r.cmd) {
          ExecAllOneMore(old(View()), served, events[i].r);
          var s := WriteSingle(events[i].r);
          replies := replies + [s];
          served := served + [events[i].r];
        }
      }
      assert events[..|events|] == events;
      ExecAllAppend(old(View()), served, batch);
      var r := WriteBatch(batch);
      replies := replies + r;
    }

    /** compactLocked: from then on a restart rebuilds exactly what memory held,
        whatever its clock. */
    method CompactLocked()
      requires Valid()
      modifies this
      ensures Valid() && View() == Compact(old(View()))
      ensures snapshot == mem.data == old(mem.data) && wal == []
      ensures forall now :: Reopen(snapshot, wal, now) == Some(old(mem.data))
    {
      snapshot := mem.data;
      wal := [];
      records := [];
    }
  }
}
