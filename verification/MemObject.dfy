/** MemStore as the object callers share: a map updated in place, each method
    proved against the functions of `Store` and `Scan`. Clock readings are
    parameters. */
module MemObject {
  import opened Basics
  import opened Commands
  import opened Decimal
  import opened Store
  import opened Glob
  import opened Scan

  /** There at `now`: put, and with no deadline or one still ahead. */
  predicate There(d: Data, key: Str, now: int) { key in d && (d[key].exp == 0 || now < d[key].exp) }

  /** A key a page may list. */
  ghost predicate Listable(d: Data, now: int, cursor: Str, pattern: Str, key: Str) {
    There(d, key, now) && (cursor == [] || Less(cursor, key)) && MatchGlob(pattern, key)
  }

  /** In order, the first `count` keys there are to list. */
  ghost predicate FirstListable(d: Data, now: int, cursor: Str, count: int, pattern: Str, page: seq<Str>) {
    && StrictlyAscending(page) && |page| <= count
    && (forall k | k in page :: Listable(d, now, cursor, pattern, k))
    && (forall k | Listable(d, now, cursor, pattern, k) && k !in page ::
          |page| == count && forall i | 0 <= i < |page| :: Less(page[i], k))
  }

  lemma PageIsFirst(d: Data, now: int, cursor: Str, count: nat, pattern: Str)
    ensures FirstListable(d, now, cursor, count, pattern, Page(d, now, cursor, count, pattern))
  {
    hide Page, Less, MatchGlob;
    PageFacts(d, now, cursor, count, pattern);
    assert forall k :: k in Candidates(d, now, cursor, pattern) <==> Listable(d, now, cursor, pattern, k);
  }

  class MemStore {
    var data: Data
    var expired: nat

    constructor ()
      ensures data == map[] && expired == 0
    {
      data, expired := map[], 0;
    }

    /** Get with nothing in between its two lock regions: the answer is the one
        the first region sees, and at most a dead entry goes away. */
    method Get(key: Str, now: int, later: int) returns (r: Reply)
      requires now <= later
      modifies this
      ensures r == Read(old(data), key, now)
      ensures r == if There(old(data), key, now) then Value(old(data)[key].value) else Failed(NotFound)
      ensures data == if key in old(data) && Expired(old(data)[key], now) then old(data) - {key} else old(data)
      ensures forall t | t >= now :: Live(data, t) == Live(old(data), t)
    {
      var ok := key in data;
      if !ok || !Expired(data[key], now) {
        return if ok then Value(data[key].value) else Failed(NotFound);
      }
      if key in data && Expired(data[key], later) {
        data := data - {key};
        expired := expired + 1;
      }
      return Failed(NotFound);
    }

    method Put(key: Str, value: Str)
      modifies this`data
      ensures data == Apply(old(data), Commands.Put(key, value), 0).0
    {
      data := data[key := Item(value, 0)];
    }

    method Delete(key: Str)
      modifies this`data
      ensures data == Apply(old(data), Commands.Delete(key), 0).0
    {
      data := data - {key};
    }

    method Clear()
      modifies this`data
      ensures data == map[]
    {
      data := map[];
    }

    /** The entry under a key once a dead one has been dropped. */
    method DropIfDead(key: Str, now: int) returns (ok: bool)
      modifies this
      ensures data == Purge(old(data), key, now) && ok == (key in data) == IsLive(old(data), key, now)
    {
      ok := key in data;
      if ok && Expired(data[key], now) {
        data := data - {key};
        expired := expired + 1;
        ok := false;
      }
    }

    method Incr(key: Str, now: int) returns (r: Reply)
      modifies this
      ensures (data, r) == Apply(old(data), Commands.Incr(key), now)
      ensures !There(old(data), key, now) ==> r == Number(1) && data == old(data)[key := Item([49], 0)]
      ensures There(old(data), key, now) ==>
                match ParseInt(old(data)[key].value)
                case None => r == Failed(NotNumeric) && data == old(data)
                case Some(v) =>
                  if v == 9223372036854775807 then r == Failed(Overflow) && data == old(data)
                  else r == Number(v + 1) && data == old(data)[key := Item(FormatInt(v + 1), 0)]
    {
      var ok := DropIfDead(key, now);
      if !ok {
        data := data[key := Item([49], 0)];
        return Number(1);
      }
      var v := ParseInt(data[key].value);
      if v == None { return Failed(NotNumeric); }
      if v.value == MAX_INT64 { return Failed(Overflow); }
      data := data[key := Item(FormatInt(v.value + 1), 0)];
      return Number(v.value + 1);
    }

    method CAS(key: Str, old_: Str, new_: Str, now: int) returns (r: Reply)
      modifies this
      ensures (data, r) == Apply(old(data), Commands.CAS(key, old_, new_), now)
      ensures !There(old(data), key, now) ==> r == Failed(NotFound) && data == old(data) - {key}
      ensures There(old(data), key, now) ==>
                if old(data)[key].value == old_ then r == Swapped(true) && data == old(data)[key := Item(new_, 0)]
                else r == Swapped(false) && data == old(data)
    {
      var ok := DropIfDead(key, now);
      if !ok { return Failed(NotFound); }
      if data[key].value != old_ { return Swapped(false); }
      data := data[key := Item(new_, 0)];
      return Swapped(true);
    }

    method Expire(key: Str, deadline: int, now: int) returns (r: Reply)
      modifies this
      ensures (data, r) == Apply(old(data), Commands.Expire(key, deadline), now)
      ensures !There(old(data), key, now) ==> r == Failed(NotFound) && data == old(data) - {key}
      ensures There(old(data), key, now) ==> r == Done && data == old(data)[key := Item(old(data)[key].value, deadline)]
    {
      var ok := DropIfDead(key, now);
      if !ok { return Failed(NotFound); }
      data := data[key := Item(data[key].value, deadline)];
      return Done;
    }

    /** The sweep drops exactly the dead keys and counts them. */
    method SweepExpired(now: int) returns (n: nat)
      modifies this
      ensures data == Live(old(data), now)
      ensures forall k :: k in data <==> There(old(data), k, now)
      ensures forall k | k in data :: data[k] == old(data)[k]
      ensures n == |old(data)| - |data| && expired == old(expired) + n
    {
      n := 0;
      var todo := data.Keys;
      while todo != {}
        invariant todo <= old(data).Keys
        invariant forall k :: k in data <==> k in old(data) && (k in todo || !Expired(old(data)[k], now))
        invariant forall k | k in data :: data[k] == old(data)[k]
        invariant n == |old(data)| - |data| && expired == old(expired)
        decreases |todo|
      {
        var k :| k in todo;
        todo := todo - {k};
        if Expired(data[k], now) {
          assert (data - {k}).Keys == data.Keys - {k};
          data := data - {k};
          n := n + 1;
        }
      }
      expired := expired + n;
    }

    method Size(now: int) returns (n: nat)
      ensures n == |Live(data, now)| == |set k | k in data && There(data, k, now)|
    {
      n := 0;
      var todo := data.Keys;
      ghost var seen: set<Str> := {};
      while todo != {}
        invariant todo <= data.Keys
        invariant forall k :: k in seen <==> k in data && k !in todo && !Expired(data[k], now)
        invariant n == |seen|
        decreases |todo|
      {
        var k :| k in todo;
        todo := todo - {k};
        if !Expired(data[k], now) {
          seen := seen + {k};
          n := n + 1;
        }
      }
      assert seen == Live(data, now).Keys == set k | k in data && There(data, k, now);
    }

    /** Where a new key goes in a sorted list. */
    static method Place(s: seq<Str>, key: Str) returns (i: nat)
      requires StrictlyAscending(s) && key !in s
      ensures i <= |s|
      ensures (forall j | 0 <= j < i :: Less(s[j], key)) && forall j | i <= j < |s| :: Less(key, s[j])
    {
      i := 0;
      while i < |s| && Less(s[i], key)
        invariant i <= |s| && forall j | 0 <= j < i :: Less(s[j], key)
      {
        i := i + 1;
      }
      if i < |s| {
        LessTotal(s[i], key);
        forall j | i < j < |s| ensures Less(key, s[j]) { LessTransitive(key, s[i], s[j]); }
      }
    }

    /** One page of a scan: the first `count` live matching keys after the
        cursor, in order, and the cursor to continue from, which is the last key of
        a full page and empty otherwise. None is the error for a count that is not
        positive. */
    method ScanKeys(cursor: Str, count: int, pattern: Str, now: int) returns (r: Option<(seq<Str>, Str)>)
      ensures r == None <==> count <= 0
      ensures r.Some? ==> r.value.0 == Page(data, now, cursor, count, pattern)
                          && r.value.1 == NextCursor(r.value.0, count)
      ensures r.Some? ==>
                var (page, next) := r.value;
                && FirstListable(data, now, cursor, count, pattern, page)
                && next == (if |page| == count then page[|page| - 1] else [])
    {
      hide FirstListable, Less, Sorted;
      if count <= 0 { return None; }
      var all: seq<Str> := [];
      var todo := data.Keys;
      ghost var wanted := Candidates(data, now, cursor, pattern);
      while todo != {}
        invariant todo <= data.Keys && StrictlyAscending(all)
        invariant forall k :: k in all <==> k in wanted && k !in todo
        decreases |todo|
      {
        var k :| k in todo;
        todo := todo - {k};
        if !Expired(data[k], now) && (cursor == [] || Less(cursor, k)) {
          var hit := MatchGlobLoop(pattern, k);
          if hit {
            var i := Place(all, k);
            all := all[..i] + [k] + all[i..];
          }
        }
      }
      SortedUnique(all, wanted);
      if |all| > count { all := all[..count]; }
      var next := if |all| == count then all[|all| - 1] else [];
      PageIsFirst(data, now, cursor, count, pattern);
      return Some((all, next));
    }

    /** The page as the caller gets it, each key with its value. */
    method ScanPage(cursor: Str, count: int, pattern: Str, now: int) returns (r: Option<(seq<(Str, Str)>, Str)>)
      ensures r == None <==> count <= 0
      ensures r.Some? ==> var page := Page(data, now, cursor, count, pattern);
                          r.value == (WithValues(data, now, page), NextCursor(page, count))
      ensures r.Some? ==>
                var (page, items) := (Page(data, now, cursor, count, pattern), r.value.0);
                && |items| == |page| && r.value.1 == (if |page| == count then page[|page| - 1] else [])
                && forall i | 0 <= i < |page| :: page[i] in data && items[i] == (page[i], data[page[i]].value)
    {
      hide Page, Less, MatchGlob, StrictlyAscending, FirstListable, WithValues;
      var found := ScanKeys(cursor, count, pattern, now);
      if found == None { return None; }
      var keys := found.value.0;
      var items: seq<(Str, Str)> := [];
      NoValues(data, now);
      for i := 0 to |keys|
        invariant items == WithValues(data, now, keys[..i])
      {
        assert keys[..i + 1] == keys[..i] + [keys[i]];
        OneMoreValue(data, now, keys[..i], keys[i]);
        items := items + [(keys[i], if IsLive(data, keys[i], now) then data[keys[i]].value else [])];
      }
      assert keys[..|keys|] == keys;
      PageValues(data, now, cursor, count, pattern);
      return Some((items, found.value.1));
    }
  }

  /** applyCmd: one engine call per command. Replay dispatches the same way and
      shrugs off the errors a record's re-evaluation can report. */
  method ApplyTo(m: MemStore, cmd: Command, now: int) returns (r: Reply)
    modifies m
    ensures (m.data, r) == Apply(old(m.data), cmd, now)
  {
    match cmd {
      case Put(k, v) => m.Put(k, v); r := Done;
      case Delete(k) => m.Delete(k); r := Done;
      case Clear => m.Clear(); r := Done;
      case Incr(k) => r := m.Incr(k, now);
      case CAS(k, o, n) => r := m.CAS(k, o, n, now);
      case Expire(k, t) => r := m.Expire(k, t, now);
    }
  }
}
