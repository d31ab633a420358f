/** Paged scans: key order, one page, and what following the cursors yields. */
module Scan {
  import opened Basics
  import opened Store
  import opened Glob

  // ---- the order on keys ----

  /** Byte-wise string order, Go's `<`. */
  predicate Less(a: Str, b: Str) {
    if b == [] then false
    else if a == [] then true
    else a[0] < b[0] || (a[0] == b[0] && Less(a[1..], b[1..]))
  }

  ghost predicate FirstDiffers(a: Str, b: Str, i: int) {
    0 <= i <= |a| && i < |b| && a[..i] == b[..i] && (i == |a| || a[i] < b[i])
  }

  /** The order in plain terms: the first byte that differs decides, and a proper
      prefix comes first. */
  lemma {:induction false} LessExactly(a: Str, b: Str)
    ensures Less(a, b) <==> exists i :: FirstDiffers(a, b, i)
  {
    if a != [] && b != [] && a[0] == b[0] {
      LessExactly(a[1..], b[1..]);
      if Less(a[1..], b[1..]) {
        var i :| FirstDiffers(a[1..], b[1..], i);
        assert a[..i + 1] == [a[0]] + a[1..][..i] && b[..i + 1] == [b[0]] + b[1..][..i];
        assert FirstDiffers(a, b, i + 1);
      }
      if exists i :: FirstDiffers(a, b, i) {
        var i :| FirstDiffers(a, b, i);
        assert i > 0 && a[1..][..i - 1] == a[..i][1..] && b[1..][..i - 1] == b[..i][1..];
        assert FirstDiffers(a[1..], b[1..], i - 1);
      }
    } else if b != [] && (a == [] || a[0] < b[0]) {
      assert FirstDiffers(a, b, 0);
    }
  }

  lemma {:induction false} LessTransitive(a: Str, b: Str, c: Str)
    requires Less(a, b) && Less(b, c)
    ensures Less(a, c)
  {
    if a != [] && a[0] == b[0] == c[0] { LessTransitive(a[1..], b[1..], c[1..]); }
  }

  lemma {:induction false} LessTotal(a: Str, b: Str)
    ensures Less(a, b) || a == b || Less(b, a)
    ensures !(Less(a, b) && Less(b, a)) && (a == b ==> !Less(a, b))
  {
    if a != [] && b != [] && a[0] == b[0] {
      LessTotal(a[1..], b[1..]);
      assert a == [a[0]] + a[1..] && b == [b[0]] + b[1..];
    }
  }

  ghost predicate StrictlyAscending(s: seq<Str>) {
    forall i, j | 0 <= i < j < |s| :: Less(s[i], s[j])
  }

  ghost predicate IsLeast(keys: set<Str>, m: Str) {
    m in keys && forall k :: k in keys && k != m ==> Less(m, k)
  }

  lemma {:induction false} LeastExists(keys: set<Str>)
    requires keys != {}
    ensures exists m :: IsLeast(keys, m)
    decreases |keys|
  {
    var x :| x in keys;
    var rest := keys - {x};
    assert keys == rest + {x};
    if rest == {} {
      assert IsLeast(keys, x);
    } else {
      LeastExists(rest);
      var y :| IsLeast(rest, y);
      LessTotal(x, y);
      if Less(x, y) {
        forall k | k in rest && k != y ensures Less(x, k) { LessTransitive(x, y, k); }
        assert IsLeast(keys, x);
      } else {
        assert IsLeast(keys, y);
      }
    }
  }

  /** The keys in order. */
  ghost function Sorted(keys: set<Str>): seq<Str>
    decreases |keys|
  {
    if keys == {} then []
    else
      LeastExists(keys);
      var m :| IsLeast(keys, m);
      [m] + Sorted(keys - {m})
  }

  lemma {:induction false} SortedIsSorted(keys: set<Str>)
    ensures StrictlyAscending(Sorted(keys))
    ensures |Sorted(keys)| == |keys| && forall k :: k in Sorted(keys) <==> k in keys
    decreases |keys|
  {
    if keys != {} {
      LeastExists(keys);
      var m :| IsLeast(keys, m) && Sorted(keys) == [m] + Sorted(keys - {m});
      var rest := Sorted(keys - {m});
      SortedIsSorted(keys - {m});
      assert forall i | 0 <= i < |rest| :: rest[i] in rest;
    }
  }

  /** There is only one way to list a set of keys in order. */
  lemma {:induction false} SortedUnique(s: seq<Str>, keys: set<Str>)
    requires StrictlyAscending(s) && forall k :: k in s <==> k in keys
    ensures s == Sorted(keys)
    decreases |s|
  {
    if s == [] {
      assert keys == {};
    } else {
      assert s[0] in keys;
      LeastExists(keys);
      var m :| IsLeast(keys, m) && Sorted(keys) == [m] + Sorted(keys - {m});
      assert m == s[0] by {
        var i :| 0 <= i < |s| && s[i] == m;
        if i > 0 { LessTotal(s[0], m); }
      }
      forall k ensures k in s[1..] <==> k in keys - {m} {
        if k in s[1..] {
          var i :| 0 <= i < |s| - 1 && s[1..][i] == k;
          LessTotal(s[0], s[i + 1]);
        }
        if k in keys - {m} { var i :| 0 <= i < |s| && s[i] == k; assert s[1..][i - 1] == k; }
      }
      SortedUnique(s[1..], keys - {m});
    }
  }

  // ---- one page ----

  /** Live keys that sort after the cursor and match the pattern. */
  ghost function Candidates(d: Data, now: int, cursor: Str, pattern: Str): set<Str> {
    set k | k in d && !Expired(d[k], now) && (cursor == [] || Less(cursor, k)) && MatchGlob(pattern, k)
  }

  /** The keys of a page: the first `count` candidates. */
  ghost function Page(d: Data, now: int, cursor: Str, count: nat, pattern: Str): seq<Str> {
    var s := Sorted(Candidates(d, now, cursor, pattern));
    if |s| > count then s[..count] else s
  }

  function NextCursor(page: seq<Str>, count: nat): Str
    requires count > 0
  {
    if |page| == count then page[|page| - 1] else []
  }

  /** Keys with their values. */
  function WithValues(d: Data, now: int, keys: seq<Str>): seq<(Str, Str)> {
    if keys == [] then []
    else [(keys[0], if IsLive(d, keys[0], now) then d[keys[0]].value else [])] + WithValues(d, now, keys[1..])
  }

  lemma PageFacts(d: Data, now: int, cursor: Str, count: nat, pattern: Str)
    ensures var c := Candidates(d, now, cursor, pattern);
            var page := Page(d, now, cursor, count, pattern);
            && StrictlyAscending(page) && |page| == Min(count, |c|)
            && (forall k :: k in page ==> k in c)
            && (forall k :: k in c && k !in page ==> |page| == count && forall i | 0 <= i < |page| :: Less(page[i], k))
  {
    var c := Candidates(d, now, cursor, pattern);
    SortedIsSorted(c);
    var s := Sorted(c);
    var page := Page(d, now, cursor, count, pattern);
    forall k | k in page ensures k in c {
      assert k in s;
    }
    forall k, i | k in c && k !in page && 0 <= i < |page| ensures Less(page[i], k) {
      var j :| 0 <= j < |s| && s[j] == k;
      assert forall m | 0 <= m < |page| :: page[m] in page;
    }
  }

  lemma NoValues(d: Data, now: int)
    ensures WithValues(d, now, []) == []
  {}

  lemma {:induction false} OneMoreValue(d: Data, now: int, keys: seq<Str>, key: Str)
    ensures WithValues(d, now, keys + [key])
            == WithValues(d, now, keys) + [(key, if IsLive(d, key, now) then d[key].value else [])]
  {
    hide IsLive;
    if keys == [] {
      assert keys + [key] == [key];
    } else {
      OneMoreValue(d, now, keys[1..], key);
      assert (keys + [key])[1..] == keys[1..] + [key];
    }
  }

  lemma {:induction false} ValuesAt(d: Data, now: int, keys: seq<Str>)
    ensures |WithValues(d, now, keys)| == |keys|
    ensures forall i | 0 <= i < |keys| && IsLive(d, keys[i], now) ::
              WithValues(d, now, keys)[i] == (keys[i], d[keys[i]].value)
  {
    if keys == [] {
    } else {
      ValuesAt(d, now, keys[1..]);
      var rest := WithValues(d, now, keys[1..]);
      forall i | 0 <= i < |keys| && IsLive(d, keys[i], now)
        ensures WithValues(d, now, keys)[i] == (keys[i], d[keys[i]].value)
      {
        if i > 0 { assert keys[1..][i - 1] == keys[i] && WithValues(d, now, keys)[i] == rest[i - 1]; }
      }
    }
  }

  /** A page lists each of its keys with the value stored under it. */
  lemma PageValues(d: Data, now: int, cursor: Str, count: nat, pattern: Str)
    ensures var page := Page(d, now, cursor, count, pattern);
            var items := WithValues(d, now, page);
            |items| == |page| && forall i | 0 <= i < |page| :: page[i] in d && items[i] == (page[i], d[page[i]].value)
  {
    hide WithValues, Page, Less, MatchGlob, StrictlyAscending;
    var page := Page(d, now, cursor, count, pattern);
    PageFacts(d, now, cursor, count, pattern);
    ValuesAt(d, now, page);
    forall i | 0 <= i < |page| ensures IsLive(d, page[i], now) { assert page[i] in page; }
  }

  // ---- following the cursors ----

  /** The store as one page request finds it. */
  datatype View = View(data: Data, now: int)

  /** `pages` are what a client gets by following cursors from `cursor`, one
      request per view, until the cursor comes back empty. Between requests the
      store may change in any way. */
  ghost predicate Follows(views: seq<View>, cursor: Str, count: nat, pattern: Str, pages: seq<seq<Str>>)
    requires count > 0
    decreases |pages|
  {
    && |views| == |pages| > 0
    && pages[0] == Page(views[0].data, views[0].now, cursor, count, pattern)
    && if NextCursor(pages[0], count) == [] then |pages| == 1
       else Follows(views[1..], NextCursor(pages[0], count), count, pattern, pages[1..])
  }

  ghost function Flatten(pages: seq<seq<Str>>): seq<Str> {
    if pages == [] then [] else pages[0] + Flatten(pages[1..])
  }

  /** Keys are never empty: the empty string is the end-of-scan cursor. */
  ghost predicate NonEmptyKeys(d: Data) { [] !in d }

  lemma {:induction false} PagesAfterCursor(views: seq<View>, cursor: Str, count: nat, pattern: Str,
                                            pages: seq<seq<Str>>)
    requires count > 0 && Follows(views, cursor, count, pattern, pages)
    ensures forall i | 0 <= i < |Flatten(pages)| :: cursor == [] || Less(cursor, Flatten(pages)[i])
    ensures StrictlyAscending(Flatten(pages))
    decreases |pages|
  {
    var page := pages[0];
    PageFacts(views[0].data, views[0].now, cursor, count, pattern);
    assert forall i | 0 <= i < |page| :: page[i] in page;
    var next := NextCursor(page, count);
    if next == [] {
      assert Flatten(pages[1..]) == [];
      assert Flatten(pages) == page;
    } else {
      var rest := Flatten(pages[1..]);
      PagesAfterCursor(views[1..], next, count, pattern, pages[1..]);
      forall i, j | 0 <= i < |page| && 0 <= j < |rest| ensures Less(page[i], rest[j]) {
        if i < |page| - 1 { LessTransitive(page[i], next, rest[j]); }
      }
      forall j | 0 <= j < |rest| && cursor != [] ensures Less(cursor, rest[j]) {
        LessTransitive(cursor, next, rest[j]);
      }
    }
  }

  /** Pages come back strictly ascending, so no key is ever repeated. */
  lemma ScanNeverRepeats(views: seq<View>, count: nat, pattern: Str, pages: seq<seq<Str>>)
    requires count > 0 && Follows(views, [], count, pattern, pages)
    ensures StrictlyAscending(Flatten(pages))
    ensures forall i, j | 0 <= i < j < |Flatten(pages)| :: Flatten(pages)[i] != Flatten(pages)[j]
  {
    PagesAfterCursor(views, [], count, pattern, pages);
    forall i, j | 0 <= i < j < |Flatten(pages)| ensures Flatten(pages)[i] != Flatten(pages)[j] {
      LessTotal(Flatten(pages)[i], Flatten(pages)[j]);
    }
  }

  /** Live and selected in a view. */
  ghost predicate Present(v: View, pattern: Str, key: Str) {
    IsLive(v.data, key, v.now) && MatchGlob(pattern, key)
  }

  lemma {:induction false} SteadyKeyIsReported(views: seq<View>, cursor: Str, count: nat, pattern: Str,
                                               pages: seq<seq<Str>>, key: Str)
    requires count > 0 && Follows(views, cursor, count, pattern, pages)
    requires forall i | 0 <= i < |views| :: NonEmptyKeys(views[i].data) && Present(views[i], pattern, key)
    requires cursor == [] || Less(cursor, key)
    ensures key in Flatten(pages)
    decreases |pages|
  {
    var page, v := pages[0], views[0];
    PageFacts(v.data, v.now, cursor, count, pattern);
    assert key in Candidates(v.data, v.now, cursor, pattern);
    if key !in page {
      assert page[|page| - 1] in page;
      SteadyKeyIsReported(views[1..], page[|page| - 1], count, pattern, pages[1..], key);
    }
  }

  /** A key that stays live and matching throughout a scan is reported exactly
      once, whatever happens to the other keys between the pages. */
  lemma ScanReportsSteadyKeysOnce(views: seq<View>, count: nat, pattern: Str, pages: seq<seq<Str>>, key: Str)
    requires count > 0 && Follows(views, [], count, pattern, pages)
    requires forall i | 0 <= i < |views| :: NonEmptyKeys(views[i].data) && Present(views[i], pattern, key)
    ensures exists i :: 0 <= i < |Flatten(pages)| && Flatten(pages)[i] == key
                        && forall j | 0 <= j < |Flatten(pages)| && Flatten(pages)[j] == key :: j == i
  {
    SteadyKeyIsReported(views, [], count, pattern, pages, key);
    ScanNeverRepeats(views, count, pattern, pages);
    var i :| 0 <= i < |Flatten(pages)| && Flatten(pages)[i] == key;
  }

  /** On a store that does not change, following the cursors always comes to an
      end, with exactly the live matching keys in order. */
  lemma {:induction false} QuietScanFrom(v: View, cursor: Str, count: nat, pattern: Str)
    returns (views: seq<View>, pages: seq<seq<Str>>)
    requires count > 0 && NonEmptyKeys(v.data)
    ensures Follows(views, cursor, count, pattern, pages)
    ensures forall i | 0 <= i < |views| :: views[i] == v
    ensures Flatten(pages) == Sorted(Candidates(v.data, v.now, cursor, pattern))
    decreases |Candidates(v.data, v.now, cursor, pattern)|
  {
    hide Less, MatchGlob, Sorted;
    var c := Candidates(v.data, v.now, cursor, pattern);
    var page := Page(v.data, v.now, cursor, count, pattern);
    PageFacts(v.data, v.now, cursor, count, pattern);
    assert forall i | 0 <= i < |page| :: page[i] in page;
    var next := NextCursor(page, count);
    if next == [] {
      assert |page| < count;
      views, pages := [v], [page];
      assert pages[1..] == [];
      SortedIsSorted(c);
    } else {
      var rest := Candidates(v.data, v.now, next, pattern);
      forall k | k in rest ensures k in c && k != next {
        LessTotal(next, k);
        if cursor != [] { LessTransitive(cursor, next, k); }
      }
      SubsetCard(rest, c - {next});
      views, pages := QuietScanFrom(v, next, count, pattern);
      views, pages := [v] + views, [page] + pages;
      assert views[1..] + [] == views[1..] && pages[1..] + [] == pages[1..];
      PagesAfterCursor(views, cursor, count, pattern, pages);
      SortedIsSorted(rest);
      forall k ensures k in Flatten(pages) <==> k in c {
        if k in c && k !in page { assert k in rest; }
      }
      SortedUnique(Flatten(pages), c);
    }
  }

  lemma QuietScanIsComplete(v: View, count: nat, pattern: Str) returns (views: seq<View>, pages: seq<seq<Str>>)
    requires count > 0 && NonEmptyKeys(v.data)
    ensures Follows(views, [], count, pattern, pages) && (forall i | 0 <= i < |views| :: views[i] == v)
    ensures StrictlyAscending(Flatten(pages)) && forall k :: k in Flatten(pages) <==> Present(v, pattern, k)
  {
    views, pages := QuietScanFrom(v, [], count, pattern);
    SortedIsSorted(Candidates(v.data, v.now, [], pattern));
  }
}
