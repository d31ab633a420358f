/** What the engine's operations mean to a reader, said by reads and replies alone:
    what a later `Get` answers after each operation, at every clock reading. */
module StoreLaws {
  import opened Basics
  import opened Commands
  import opened Decimal
  import opened Store
  import opened Expiry

  /** Nothing is there before anything is put. */
  lemma NothingAtFirst(key: Str, now: int)
    ensures Read(map[], key, now) == Failed(NotFound)
  {}

  /** A put value stays readable for good. */
  lemma PutThenRead(d: Data, key: Str, value: Str, now: int, later: int)
    ensures Apply(d, Put(key, value), now).1 == Done
    ensures Read(Apply(d, Put(key, value), now).0, key, later) == Value(value)
  {}

  lemma DeleteThenRead(d: Data, key: Str, now: int, later: int)
    ensures Apply(d, Delete(key), now).1 == Done && Read(Apply(d, Delete(key), now).0, key, later) == Failed(NotFound)
  {}

  lemma ClearThenRead(d: Data, key: Str, now: int, later: int)
    ensures Apply(d, Clear, now).1 == Done && Read(Apply(d, Clear, now).0, key, later) == Failed(NotFound)
  {}

  /** A deadline works from the very instant it names: the value is there before it
      and gone from it on. Zero is no deadline. A missing key is refused. */
  lemma ExpireThenRead(d: Data, key: Str, deadline: int, now: int, later: int)
    ensures var (d1, reply) := Apply(d, Expire(key, deadline), now);
            match Read(d, key, now)
            case Value(v) =>
              && reply == Done
              && Read(d1, key, later) == if deadline == 0 || later < deadline then Value(v) else Failed(NotFound)
            case _ =>
              && reply == Failed(NotFound)
              && (later >= now ==> Read(d1, key, later) == Failed(NotFound))
  {}

  /** A swap happens exactly on a match, and drops the deadline with the old value. */
  lemma CasThenRead(d: Data, key: Str, o: Str, n: Str, now: int, later: int)
    ensures var (d1, reply) := Apply(d, CAS(key, o, n), now);
            match Read(d, key, now)
            case Value(v) =>
              if v == o then reply == Swapped(true) && Read(d1, key, later) == Value(n)
              else reply == Swapped(false) && Read(d1, key, later) == Read(d, key, later)
            case _ =>
              reply == Failed(NotFound) && (later >= now ==> Read(d1, key, later) == Failed(NotFound))
  {}

  /** A counter starts at 1, goes up by one, and drops its deadline; what is no number
      below 2^63 - 1 is refused and left alone. */
  lemma IncrThenRead(d: Data, key: Str, now: int, later: int)
    ensures var (d1, reply) := Apply(d, Incr(key), now);
            match Read(d, key, now)
            case Value(v) =>
              (match ParseInt(v)
               case None => reply == Failed(NotNumeric) && Read(d1, key, later) == Read(d, key, later)
               case Some(n) =>
                 if n == 9223372036854775807
                 then reply == Failed(Overflow) && Read(d1, key, later) == Read(d, key, later)
                 else reply == Number(n + 1) && Read(d1, key, later) == Value(FormatInt(n + 1)))
            case _ => reply == Number(1) && Read(d1, key, later) == Value(FormatInt(1))
  {}

  /** No operation but Clear touches another key, now or at any other time. */
  lemma OtherKeysStay(d: Data, cmd: Command, key: Str, now: int, later: int)
    requires cmd != Clear && cmd.key != key
    ensures Read(Apply(d, cmd, now).0, key, later) == Read(d, key, later)
  {}

  /** A key that is gone stays gone until someone writes it, and a key that is there
      was there before. */
  lemma DeadlinesOnlyTake(d: Data, key: Str, now: int, later: int)
    requires now <= later
    ensures Read(d, key, later) == Read(d, key, now) || Read(d, key, later) == Failed(NotFound)
    ensures Read(d, key, now) == Failed(NotFound) ==> Read(d, key, later) == Failed(NotFound)
  {}

  /** What "the same live state" means, here and in the statements about replay and
      crashes: every key reads the same from `now` on, however long one waits. */
  lemma AlikeIsSameReads(d: Data, r: Data, now: int)
    ensures Alike(d, r, now) <==> forall k, t | t >= now :: Read(d, k, t) == Read(r, k, t)
  {
    AlikePointwise(d, r, now);
    if Alike(d, r, now) {
      forall k, t | t >= now ensures Read(d, k, t) == Read(r, k, t) {
        AlikeLater(d, r, now, t);
        AlikePointwise(d, r, t);
      }
    }
    if forall k, t | t >= now :: Read(d, k, t) == Read(r, k, t) {
      forall k ensures (IsLive(d, k, now) <==> IsLive(r, k, now)) && (IsLive(d, k, now) ==> d[k] == r[k]) {
        assert Read(d, k, now) == Read(r, k, now);
        if IsLive(d, k, now) {
          assert Read(d, k, Max(now, d[k].exp)) == Read(r, k, Max(now, d[k].exp));
          assert Read(d, k, Max(now, r[k].exp)) == Read(r, k, Max(now, r[k].exp));
        }
      }
    }
  }

  /** Every operation respects it: stores that read alike give the same reply, and
      read alike afterwards. */
  lemma SameReadsSameFuture(d: Data, r: Data, cmd: Command, now: int)
    requires forall k, t | t >= now :: Read(d, k, t) == Read(r, k, t)
    ensures Apply(d, cmd, now).1 == Apply(r, cmd, now).1
    ensures forall k, t | t >= now :: Read(Apply(d, cmd, now).0, k, t) == Read(Apply(r, cmd, now).0, k, t)
  {
    hide Apply, Read, IdealApply;
    AlikeIsSameReads(d, r, now);
    ApplyAlike(d, r, cmd, now);
    ApplyAlike(r, r, cmd, now);
    AlikeIsSameReads(Apply(d, cmd, now).0, Apply(r, cmd, now).0, now);
  }
}
