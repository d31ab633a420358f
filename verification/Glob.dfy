/** The scan pattern matcher: a loop that backtracks to the last star, against
    the declarative meaning of `*`. */
module Glob {
  import opened Basics

  const STAR: byte := 42

  /** `*` stands for any run of bytes, including the empty run; any other byte
      stands for itself. */
  ghost predicate Matches(p: Str, s: Str)
    decreases |p|
  {
    if p == [] then s == []
    else if p[0] == STAR then exists k :: 0 <= k <= |s| && Matches(p[1..], s[k..])
    else s != [] && s[0] == p[0] && Matches(p[1..], s[1..])
  }

  /** What a pattern selects in a scan: the empty pattern selects every key. */
  ghost predicate Selects(p: Str, s: Str) { p == [] || Matches(p, s) }

  predicate AllStars(p: Str) { forall i | 0 <= i < |p| :: p[i] == STAR }

  /** The matcher's loop from a given position, as a function. */
  predicate Search(p: Str, s: Str, pi: nat, si: nat, star: int, mark: nat)
    requires pi <= |p| && mark <= si <= |s| && -1 <= star < pi
    decreases |s| - mark, |p| - star, |p| - pi
  {
    if si == |s| then AllStars(p[pi..])
    else if pi < |p| && p[pi] == s[si] then Search(p, s, pi + 1, si + 1, star, mark)
    else if pi < |p| && p[pi] == STAR then Search(p, s, pi + 1, si, pi, si)
    else if star != -1 then Search(p, s, star + 1, mark + 1, star, mark + 1)
    else false
  }

  predicate MatchGlob(p: Str, s: Str) { p == [] || Search(p, s, 0, 0, -1, 0) }

  /** The loop itself. */
  method MatchGlobLoop(p: Str, s: Str) returns (r: bool)
    ensures r == MatchGlob(p, s)
  {
    if p == [] { return true; }
    var pi, si, star, mark := 0, 0, -1, 0;
    while si < |s|
      invariant 0 <= pi <= |p| && 0 <= mark <= si <= |s| && -1 <= star < pi
      invariant Search(p, s, 0, 0, -1, 0) == Search(p, s, pi, si, star, mark)
      decreases |s| - mark, |p| - star, |p| - pi
    {
      if pi < |p| && p[pi] == s[si] {
        pi, si := pi + 1, si + 1;
      } else if pi < |p| && p[pi] == STAR {
        star, mark := pi, si;
        pi := pi + 1;
      } else if star != -1 {
        pi, mark := star + 1, mark + 1;
        si := mark;
      } else {
        return false;
      }
    }
    ghost var rest := pi;
    while pi < |p| && p[pi] == STAR
      invariant rest <= pi <= |p| && forall i | rest <= i < pi :: p[i] == STAR
    {
      pi := pi + 1;
    }
    r := pi == |p|;
    assert p[rest..] == p[rest..pi] + p[pi..];
    assert !r ==> p[rest..][pi - rest] != STAR;
  }

  // ---- facts about the declarative meaning ----

  lemma {:induction false} EmptySubject(p: Str)
    ensures Matches(p, []) <==> AllStars(p)
  {
    if p == [] {
    } else {
      EmptySubject(p[1..]);
      if p[0] == STAR {
        var none: Str := [];
        assert none[0..] == none;
        assert AllStars(p) <==> AllStars(p[1..]) by { assert p == [p[0]] + p[1..]; }
      }
    }
  }

  /** The wildcard is the asterisk, byte 42, and no other byte. */
  lemma AsteriskIsTheWildcard(b: byte, s: Str)
    ensures Selects([b], s) <==> b == 42 || s == [b]
  {
    assert [b][1..] == [];
    if b == 42 {
      assert s[|s|..] == [] && Matches([b][1..], s[|s|..]);
    } else if s != [] {
      assert s == [s[0]] + s[1..];
      assert Matches([], s[1..]) <==> s[1..] == [];
      assert Matches([b], s) <==> s[0] == b && Matches([b][1..], s[1..]);
    }
  }

  /** Only stars match a lone star, since pattern stars are never literal. */
  lemma {:induction false} LoneStar(p: Str, s: Str)
    requires |s| <= 1 && (s != [] ==> s[0] == STAR) && Matches(p, s)
    ensures AllStars(p)
  {
    if p != [] && p[0] == STAR {
      var k :| 0 <= k <= |s| && Matches(p[1..], s[k..]);
      LoneStar(p[1..], s[k..]);
      assert p == [p[0]] + p[1..];
    }
  }

  /** A leading star absorbs whatever comes before a match. */
  lemma StarAbsorbs(p: Str, s: Str, i: nat, j: nat)
    requires i <= j <= |s| && p != [] && p[0] == STAR && Matches(p, s[j..])
    ensures Matches(p, s[i..])
  {
    var k :| 0 <= k <= |s[j..]| && Matches(p[1..], s[j..][k..]);
    assert s[j..][k..] == s[i..][j - i + k..];
  }

  ghost predicate StarFree(s: Str) { STAR !in s }

  /** A star-free stretch of pattern matches itself and nothing else. */
  lemma {:induction false} LiteralPrefix(lit: Str, p: Str, s: Str)
    requires StarFree(lit)
    ensures Matches(lit + p, s) <==> lit <= s && Matches(p, s[|lit|..])
  {
    if lit == [] {
      assert lit + p == p && s[0..] == s;
    } else {
      assert (lit + p)[1..] == lit[1..] + p && lit[0] != STAR;
      if s != [] {
        LiteralPrefix(lit[1..], p, s[1..]);
        if |lit| <= |s| { assert s[1..][|lit| - 1..] == s[|lit|..]; }
        assert lit == [lit[0]] + lit[1..] && s == [s[0]] + s[1..];
      }
    }
  }

  // ---- the loop invariant and its steps ----

  /** What the loop has established: the pattern between the last star and the
      current position was matched literally from `mark` on. */
  ghost predicate Progress(p: Str, s: Str, pi: nat, si: nat, star: int, mark: nat) {
    && pi <= |p| && mark <= si <= |s| && -1 <= star < pi
    && (star >= 0 ==> p[star] == STAR && StarFree(p[star + 1..pi]) && p[star + 1..pi] == s[mark..si])
  }

  /** What remains to be decided. */
  ghost predicate Goal(p: Str, s: Str, pi: nat, si: nat, star: int, mark: nat)
    requires Progress(p, s, pi, si, star, mark)
  {
    if star == -1 then Matches(p[pi..], s[si..]) else Matches(p[star..], s[mark..])
  }

  ghost predicate PlacedAt(p: Str, s: Str, pi: nat, star: int, mark: nat, k: nat)
    requires 0 <= star < pi <= |p| && mark + k <= |s|
  {
    var lit := p[star + 1..pi];
    lit <= s[mark..][k..] && Matches(p[pi..], s[mark..][k..][|lit|..])
  }

  /** With a star behind, the goal is to place the literal stretch somewhere at
      or after `mark` and match the rest after it. */
  lemma GoalUnfolds(p: Str, s: Str, pi: nat, si: nat, star: int, mark: nat)
    requires Progress(p, s, pi, si, star, mark) && star >= 0
    ensures Goal(p, s, pi, si, star, mark) <==>
            exists k :: 0 <= k <= |s| - mark && PlacedAt(p, s, pi, star, mark, k)
  {
    var lit := p[star + 1..pi];
    assert p[star..][1..] == lit + p[pi..];
    forall k | 0 <= k <= |s| - mark
      ensures Matches(p[star..][1..], s[mark..][k..]) <==> PlacedAt(p, s, pi, star, mark, k)
    {
      LiteralPrefix(lit, p[pi..], s[mark..][k..]);
    }
  }

  /** Meeting a new star: the old one need not be reconsidered. */
  lemma NewStar(p: Str, s: Str, pi: nat, si: nat, star: int, mark: nat)
    requires Progress(p, s, pi, si, star, mark) && pi < |p| && p[pi] == STAR
    ensures Goal(p, s, pi, si, star, mark) <==> Matches(p[pi..], s[si..])
  {
    if star >= 0 {
      GoalUnfolds(p, s, pi, si, star, mark);
      var lit := p[star + 1..pi];
      if Matches(p[pi..], s[si..]) {
        assert s[mark..][0..] == s[mark..] && s[mark..][|lit|..] == s[si..];
        assert lit <= s[mark..] by { assert s[mark..][..|lit|] == s[mark..si]; }
        assert PlacedAt(p, s, pi, star, mark, 0);
      }
      if Goal(p, s, pi, si, star, mark) {
        var k :| 0 <= k <= |s| - mark && PlacedAt(p, s, pi, star, mark, k);
        assert s[mark..][k..][|lit|..] == s[si + k..];
        StarAbsorbs(p[pi..], s, si, si + k);
      }
    }
  }

  /** A mismatch rules out the current placement, so the mark may move on. */
  lemma MoveMark(p: Str, s: Str, pi: nat, si: nat, star: int, mark: nat)
    requires Progress(p, s, pi, si, star, mark) && star >= 0 && si < |s|
    requires pi == |p| || (p[pi] != s[si] && p[pi] != STAR)
    ensures Progress(p, s, star + 1, mark + 1, star, mark + 1)
    ensures Goal(p, s, pi, si, star, mark) <==> Goal(p, s, star + 1, mark + 1, star, mark + 1)
  {
    GoalUnfolds(p, s, pi, si, star, mark);
    var lit := p[star + 1..pi];
    assert !Matches(p[pi..], s[si..]);
    assert s[mark..][0..][|lit|..] == s[si..];
    assert p[star..][1..] == lit + p[pi..];
    LiteralPrefix(lit, p[pi..], s[mark..][0..]);
    assert !Matches(p[star..][1..], s[mark..][0..]);
    if Goal(p, s, pi, si, star, mark) {
      var k :| 0 <= k <= |s[mark..]| && Matches(p[star..][1..], s[mark..][k..]);
      assert s[mark..][k..] == s[mark + 1..][k - 1..];
    }
    if Goal(p, s, star + 1, mark + 1, star, mark + 1) {
      StarAbsorbs(p[star..], s, mark, mark + 1);
    }
  }

  /** At the end of the subject only stars may be left over. */
  lemma AtEnd(p: Str, s: Str, pi: nat, star: int, mark: nat)
    requires Progress(p, s, pi, |s|, star, mark)
    ensures Goal(p, s, pi, |s|, star, mark) <==> AllStars(p[pi..])
  {
    EmptySubject(p[pi..]);
    assert s[|s|..] == [];
    if star >= 0 {
      GoalUnfolds(p, s, pi, |s|, star, mark);
      var lit := p[star + 1..pi];
      assert s[mark..][0..] == s[mark..] == lit && s[mark..][0..][|lit|..] == [];
      if AllStars(p[pi..]) { assert PlacedAt(p, s, pi, star, mark, 0); }
      if Goal(p, s, pi, |s|, star, mark) {
        var k :| 0 <= k <= |s| - mark && PlacedAt(p, s, pi, star, mark, k);
        assert k == 0;
      }
    }
  }

  /** A literal star can only be the last byte of the subject here; consuming it
      literally, as the code does, decides the match correctly. */
  lemma LiteralStarAtEnd(p: Str, s: Str, pi: nat, star: int, mark: nat)
    requires s != [] && Progress(p, s, pi, |s| - 1, star, mark)
    requires pi < |p| && p[pi] == s[|s| - 1] == STAR
    ensures Goal(p, s, pi, |s| - 1, star, mark) <==> AllStars(p[pi + 1..])
  {
    var si := |s| - 1;
    NewStar(p, s, pi, si, star, mark);
    assert s[si..] == [STAR];
    assert p[pi..][1..] == p[pi + 1..];
    if Matches(p[pi..], s[si..]) {
      LoneStar(p[pi..], s[si..]);
      assert p[pi..] == [STAR] + p[pi + 1..];
    }
    if AllStars(p[pi + 1..]) {
      EmptySubject(p[pi + 1..]);
      assert s[si..][1..] == [];
    }
  }

  ghost predicate StarOnlyLast(s: Str) { forall i | 0 <= i < |s| - 1 :: s[i] != STAR }

  lemma {:induction false} SearchDecidesGoal(p: Str, s: Str, pi: nat, si: nat, star: int, mark: nat)
    requires Progress(p, s, pi, si, star, mark) && StarOnlyLast(s)
    ensures Search(p, s, pi, si, star, mark) == Goal(p, s, pi, si, star, mark)
    decreases |s| - mark, |p| - star, |p| - pi
  {
    if si == |s| {
      AtEnd(p, s, pi, star, mark);
    } else if pi < |p| && p[pi] == s[si] {
      if p[pi] == STAR {
        LiteralStarAtEnd(p, s, pi, star, mark);
      } else {
        if star == -1 {
          assert p[pi..][1..] == p[pi + 1..] && s[si..][1..] == s[si + 1..];
        } else {
          assert p[star + 1..pi + 1] == p[star + 1..pi] + [p[pi]];
          assert s[mark..si + 1] == s[mark..si] + [s[si]];
        }
        SearchDecidesGoal(p, s, pi + 1, si + 1, star, mark);
      }
    } else if pi < |p| && p[pi] == STAR {
      NewStar(p, s, pi, si, star, mark);
      SearchDecidesGoal(p, s, pi + 1, si, pi, si);
    } else if star != -1 {
      MoveMark(p, s, pi, si, star, mark);
      SearchDecidesGoal(p, s, star + 1, mark + 1, star, mark + 1);
    }
  }

  /** On subjects without `*`, which is all the key rule admits, and even with
      one as the last byte, the matcher is right for every pattern. */
  lemma MatchGlobCorrect(p: Str, s: Str)
    requires StarOnlyLast(s)
    ensures MatchGlob(p, s) == Selects(p, s)
  {
    if p != [] {
      assert p[0..] == p && s[0..] == s;
      SearchDecidesGoal(p, s, 0, 0, -1, 0);
    }
  }

  // ---- and exactly when it is not ----

  lemma {:induction false} SearchLiteral(p: Str, s: Str, n: nat, i: nat)
    requires i <= n <= |p| && n <= |s| && p[..n] == s[..n]
    ensures Search(p, s, i, i, -1, 0) == Search(p, s, n, n, -1, 0)
    decreases n - i
  {
    if i < n {
      assert p[..n][i] == s[..n][i];
      SearchLiteral(p, s, n, i + 1);
    }
  }

  /** A star before the last byte of the subject always defeats some pattern:
      the literal text up to it, followed by a star. */
  lemma StarInSubjectDefeats(s: Str, j: nat)
    requires j < |s| - 1 && s[j] == STAR && forall i | 0 <= i < j :: s[i] != STAR
    ensures var p := s[..j] + [STAR]; Selects(p, s) && !MatchGlob(p, s)
  {
    var p := s[..j] + [STAR];
    LiteralPrefix(s[..j], [STAR], s);
    assert s[j..][|s| - j..] == [] && [STAR][1..] == [];
    assert p[..j + 1] == s[..j + 1];
    SearchLiteral(p, s, j + 1, 0);
  }

  lemma {:induction false} FirstStar(s: Str, i: nat) returns (j: nat)
    requires i < |s| - 1 && s[i] == STAR
    ensures j <= i && s[j] == STAR && forall k | 0 <= k < j :: s[k] != STAR
  {
    if k :| 0 <= k < i && s[k] == STAR { j := FirstStar(s, k); } else { j := i; }
  }

  /** The matcher agrees with the meaning of `*` on every pattern if and only if
      no byte of the subject but the last is a star. */
  lemma MatchGlobCorrectExactly(s: Str)
    ensures (forall p :: MatchGlob(p, s) == Selects(p, s)) <==> StarOnlyLast(s)
  {
    if StarOnlyLast(s) {
      forall p ensures MatchGlob(p, s) == Selects(p, s) { MatchGlobCorrect(p, s); }
    } else {
      var i :| 0 <= i < |s| - 1 && s[i] == STAR;
      var j := FirstStar(s, i);
      StarInSubjectDefeats(s, j);
      assert MatchGlob(s[..j] + [STAR], s) != Selects(s[..j] + [STAR], s);
    }
  }
}
