/** Expiry is transparent: wherever lazy and active purges fall, a client sees
    a store that never purges and treats dead entries as absent. */
module Expiry {
  import opened Basics
  import opened Commands
  import opened Decimal
  import opened Store
  import opened Scan

  /** Everything that can happen to a MemStore, each at its clock reading. Get
      is two steps, because other calls may run between its two lock regions:
      `First` answers, and if it found a dead entry, `Second` comes later. */
  datatype Event =
    | Do(cmd: Command, now: int)
    | First(key: Str, now: int)
    | Second(key: Str, now: int)
    | Sweep(now: int)
    | ScanPage(cursor: Str, count: int, pattern: Str, now: int)
    | Size(now: int)

  datatype Seen = Nothing | Refused | Replied(reply: Reply) | Listed(items: seq<(Str, Str)>) | Counted(n: nat)

  /** The page with its values. */
  ghost function Items(d: Data, now: int, cursor: Str, count: nat, pattern: Str): seq<(Str, Str)> {
    WithValues(d, now, Page(d, now, cursor, count, pattern))
  }

  /** The real store: mutations purge on the way, so do sweeps and the second
      phase of Get. */
  ghost function Act(d: Data, e: Event): (Data, Seen) {
    match e
    case Do(cmd, now) => var (d1, r) := Apply(d, cmd, now); (d1, Replied(r))
    case First(k, now) => (d, Replied(Read(d, k, now)))
    case Second(k, now) => (Purge(d, k, now), Nothing)
    case Sweep(now) => (Live(d, now), Nothing)
    case ScanPage(cursor, count, pattern, now) =>
      (d, if count <= 0 then Refused else Listed(Items(d, now, cursor, count, pattern)))
    case Size(now) => (d, Counted(|Live(d, now)|))
  }

  function IdealApply(d: Data, cmd: Command, now: int): (Data, Reply) {
    match cmd
    case Put(k, v) => (d[k := Item(v, 0)], Done)
    case Delete(k) => (d - {k}, Done)
    case Clear => (map[], Done)
    case Incr(k) =>
      if !IsLive(d, k, now) then (d[k := Item(FormatInt(1), 0)], Number(1))
      else (match ParseInt(d[k].value)
            case None => (d, Failed(NotNumeric))
            case Some(v) =>
              if v == MAX_INT64 then (d, Failed(Overflow)) else (d[k := Item(FormatInt(v + 1), 0)], Number(v + 1)))
    case CAS(k, old_, new_) =>
      if !IsLive(d, k, now) then (d, Failed(NotFound))
      else if d[k].value != old_ then (d, Swapped(false))
      else (d[k := Item(new_, 0)], Swapped(true))
    case Expire(k, t) =>
      if !IsLive(d, k, now) then (d, Failed(NotFound)) else (d[k := Item(d[k].value, t)], Done)
  }

  /** The reference: nothing is ever purged; a dead entry counts as absent. */
  ghost function Ideal(d: Data, e: Event): (Data, Seen) {
    match e
    case Do(cmd, now) => var (d1, r) := IdealApply(d, cmd, now); (d1, Replied(r))
    case Second(_, _) => (d, Nothing)
    case Sweep(_) => (d, Nothing)
    case _ => (d, Act(d, e).1)
  }

  // ---- the simulation ----

  /** Indistinguishable from `now` on. */
  ghost predicate Alike(d: Data, r: Data, now: int) { Live(d, now) == Live(r, now) }

  lemma AlikePointwise(d: Data, r: Data, now: int)
    ensures Alike(d, r, now) <==>
            forall k :: (IsLive(d, k, now) <==> IsLive(r, k, now)) && (IsLive(d, k, now) ==> d[k] == r[k])
  {
    if Alike(d, r, now) {
      forall k ensures (IsLive(d, k, now) <==> IsLive(r, k, now)) && (IsLive(d, k, now) ==> d[k] == r[k]) {
        assert (k in Live(d, now)) == (k in Live(r, now));
        if k in Live(d, now) { assert Live(d, now)[k] == Live(r, now)[k]; }
      }
    }
  }

  /** What is dead stays dead. */
  lemma AlikeLater(d: Data, r: Data, now: int, later: int)
    requires Alike(d, r, now) && now <= later
    ensures Alike(d, r, later)
  {
    AlikePointwise(d, r, now);
    AlikePointwise(d, r, later);
  }

  /** A purge removes no live entry. */
  lemma PurgesKeepLive(d: Data, key: Str, now: int)
    ensures Live(Purge(d, key, now), now) == Live(d, now)
    ensures Live(Live(d, now), now) == Live(d, now)
  {}

  lemma ApplyAlike(d: Data, r: Data, cmd: Command, now: int)
    requires Alike(d, r, now)
    ensures Apply(d, cmd, now).1 == IdealApply(r, cmd, now).1
    ensures Alike(Apply(d, cmd, now).0, IdealApply(r, cmd, now).0, now)
  {
    hide ParseInt, FormatInt, Live;
    AlikePointwise(d, r, now);
    AlikePointwise(Apply(d, cmd, now).0, IdealApply(r, cmd, now).0, now);
  }

  lemma {:induction false} ValuesAlike(d: Data, r: Data, now: int, keys: seq<Str>)
    requires Alike(d, r, now)
    ensures WithValues(d, now, keys) == WithValues(r, now, keys)
  {
    AlikePointwise(d, r, now);
    if keys == [] {
    } else {
      ValuesAlike(d, r, now, keys[1..]);
    }
  }

  lemma PagesAlike(d: Data, r: Data, now: int, cursor: Str, count: nat, pattern: Str)
    requires Alike(d, r, now)
    ensures Items(d, now, cursor, count, pattern) == Items(r, now, cursor, count, pattern)
  {
    AlikePointwise(d, r, now);
    forall k ensures k in Candidates(d, now, cursor, pattern) <==> k in Candidates(r, now, cursor, pattern) {
      assert IsLive(d, k, now) <==> IsLive(r, k, now);
    }
    assert Candidates(d, now, cursor, pattern) == Candidates(r, now, cursor, pattern);
    ValuesAlike(d, r, now, Page(d, now, cursor, count, pattern));
  }

  lemma EventAlike(d: Data, r: Data, e: Event)
    requires Alike(d, r, e.now)
    ensures Act(d, e).1 == Ideal(r, e).1
    ensures Alike(Act(d, e).0, Ideal(r, e).0, e.now)
  {
    match e {
      case Do(cmd, now) => ApplyAlike(d, r, cmd, now);
      case First(k, now) => AlikePointwise(d, r, now);
      case Second(k, now) => PurgesKeepLive(d, k, now);
      case Sweep(now) => PurgesKeepLive(d, [], now);
      case ScanPage(cursor, count, pattern, now) => if count > 0 { PagesAlike(d, r, now, cursor, count, pattern); }
      case Size(now) =>
    }
  }

  // ---- whole runs ----

  ghost function Observe(d: Data, events: seq<Event>): seq<Seen>
    decreases |events|
  {
    if events == [] then [] else [Act(d, events[0]).1] + Observe(Act(d, events[0]).0, events[1..])
  }

  ghost function ObserveIdeal(d: Data, events: seq<Event>): seq<Seen>
    decreases |events|
  {
    if events == [] then [] else [Ideal(d, events[0]).1] + ObserveIdeal(Ideal(d, events[0]).0, events[1..])
  }

  ghost predicate ClockRuns(events: seq<Event>, from: int)
    decreases |events|
  {
    events == [] || (from <= events[0].now && ClockRuns(events[1..], events[0].now))
  }

  /** For every run on a clock that does not go back, with sweeps and second
      phases anywhere, every reply, page and count is the reference's. */
  lemma {:induction false} ExpiryIsTransparent(d: Data, r: Data, events: seq<Event>, start: int)
    requires Alike(d, r, start) && ClockRuns(events, start)
    ensures Observe(d, events) == ObserveIdeal(r, events)
    decreases |events|
  {
    if events == [] {
    } else {
      var e := events[0];
      AlikeLater(d, r, start, e.now);
      EventAlike(d, r, e);
      ExpiryIsTransparent(Act(d, e).0, Ideal(r, e).0, events[1..], e.now);
    }
  }
}
