/** Why an orderly run asks for match indexes within the winner's log. A match index
    about a peer that has left for a later term is warranted, because that peer is
    never counted as holding anything; but it is counted towards a commit. Here is
    a run, with every request delivered promptly and every victory warranted,
    in which a leader commits an entry that a later leader lacks. */
module WarrantLimits {
  import opened Basics
  import opened Commands
  import opened RaftNode
  import opened Commit
  import opened LeaderLogic
  import opened Cluster
  import opened Runs
  import opened Leftovers

  const E2 := Entry(2, Clear)
  const E5 := Entry(5, Clear)
  const SEND4 := AppendRequest(4, "c", 0, 0, [E2], 0)
  const SEND5 := AppendRequest(5, "a", 0, 0, [E2], 0)

  lemma RivalSubmits(t: Trio)
    requires Reachable(Promptly, t) && t.c == Leads("c", PC, 2, [], 0, None)
    ensures Reachable(Promptly, Trio(t.a, t.b, Leads("c", PC, 2, [E2], 0, Some(RC1)), {}))
  {
    hide Reachable;
    CallsA(Promptly, t);
    var t1 := With(t, "c", Leads("c", PC, 2, [], 0, Some(RC1)), {Append("a", LATE)});
    Submits(Promptly, t1, "c", Clear);
    assert [] + [E2] == [E2];
    var grown := AppendOwn(t1.c.node, Clear);
    var t2 := With(t1, "c", t1.c.(node := grown.(dirty := false), disk := ToDisk(grown)), {});
    assert t2.c == Leads("c", PC, 2, [E2], 0, Some(RC1));
    LessMail(Promptly, t2, Trio(t.a, t.b, t2.c, {}));
  }

  /** "c" wins term 2 and logs an entry nobody hears of; "a" only learns the term. */
  lemma RivalEntry()
    ensures Reachable(Promptly, Trio(M("a", PA, Follower, 2, None, None, [E1, E1], 0, true, D(1, "a", []), Some(R0)),
                                 Follows("b", PB, 2, "c", None, [], 0, None), Leads("c", PC, 2, [E2], 0, Some(RC1)), {}))
  {
    hide Reachable;
    UnheardEntries(Promptly);
    var a := M("a", PA, Follower, 1, None, None, [E1, E1], 0, true, D(1, "a", []), Some(R0));
    var t := Trio(a, Follows("b", PB, 1, "a", None, [], 0, None), Follows("c", PC, 1, "a", None, [], 0, None), {});
    var ask := VoteRequest(2, "c", 0, 0);
    assert Ask(t.c) == ask;
    var b := Follows("b", PB, 2, "c", None, [], 0, None);
    assert Crowned(t.c) == Leads("c", PC, 2, [], 0, None) && Voted(t.b, ask) == b;
    FreshIsWarranted(With(With(t, "b", b, {Solicit(ask), Ballot("b", ask)}), "c", Crowned(t.c), {}), "c");
    Elect(Promptly, t, "c", "b");
    var t1 := Trio(a, b, Leads("c", PC, 2, [], 0, None), {Solicit(ask)});
    LessMail(Promptly, With(With(t, "b", b, {Solicit(ask), Ballot("b", ask)}), "c", t1.c, {}), t1);
    Refuses(Promptly, t1, "a", ask);
    var a1 := M("a", PA, Follower, 2, None, None, [E1, E1], 0, true, D(1, "a", []), Some(R0));
    var t2 := Trio(a1, b, t1.c, {});
    assert DecideVote(a.node, ask).0 == a1.node;
    LessMail(Promptly, With(t1, "a", a1, {}), t2);
    RivalSubmits(t2);
  }

  lemma OldEntriesShip(t: Trio)
    requires Reachable(Promptly, t)
    requires t.a == Leads("a", PA, 3, [E1, E1], 0, Some(R0)) && t.b == Follows("b", PB, 3, "a", None, [], 0, None)
    ensures Reachable(Promptly, Trio(Leads("a", PA, 3, [E1, E1], 0, Some(R2)),
                                     Follows("b", PB, 3, "a", Some("a"), [E1, E1], 0, None), t.c, {}))
  {
    hide Reachable;
    var req := AppendRequest(3, "a", 0, 0, [E1, E1], 0);
    assert CallOf(t.a, "b") == req;
    Ships(Promptly, t, "a", "b");
    TakesTwo(t.b, req, 3, "a");
    AckTwo(t.a, req, 3);
    LessMail(Promptly, With(With(t, "b", Took(t.b, req), {}), "a", Called(t.a, "b", AppendResponse(3, true)), {}),
             Trio(Leads("a", PA, 3, [E1, E1], 0, Some(R2)), Follows("b", PB, 3, "a", Some("a"), [E1, E1], 0, None), t.c, {}));
  }

  /** "a" wins term 3 with its two entries of term 1, and "b" acknowledges them. */
  lemma OldEntriesAcknowledged()
    ensures Reachable(Promptly, Trio(Leads("a", PA, 3, [E1, E1], 0, Some(R2)),
                                     Follows("b", PB, 3, "a", Some("a"), [E1, E1], 0, None),
                                 M("c", PC, Follower, 3, None, None, [E2], 0, true, D(2, "c", [E2]), Some(RC1)), {}))
  {
    hide Reachable;
    RivalEntry();
    var a := M("a", PA, Follower, 2, None, None, [E1, E1], 0, true, D(1, "a", []), Some(R0));
    var t := Trio(a, Follows("b", PB, 2, "c", None, [], 0, None), Leads("c", PC, 2, [E2], 0, Some(RC1)), {});
    var ask := VoteRequest(3, "a", 2, 1);
    assert Ask(t.a) == ask;
    var b := Follows("b", PB, 3, "a", None, [], 0, None);
    assert Crowned(t.a) == Leads("a", PA, 3, [E1, E1], 0, Some(R0)) && Voted(t.b, ask) == b;
    IsWarranted(With(With(t, "b", b, {Solicit(ask), Ballot("b", ask)}), "a", Crowned(t.a), {}), "a");
    Elect(Promptly, t, "a", "b");
    var t1 := Trio(Leads("a", PA, 3, [E1, E1], 0, Some(R0)), b, t.c, {Solicit(ask)});
    LessMail(Promptly, With(With(t, "b", b, {Solicit(ask), Ballot("b", ask)}), "a", t1.a, {}), t1);
    Refuses(Promptly, t1, "c", ask);
    var c := M("c", PC, Follower, 3, None, None, [E2], 0, true, D(2, "c", [E2]), Some(RC1));
    assert DecideVote(t.c.node, ask).0 == c.node;
    var t2 := Trio(t1.a, b, c, {});
    LessMail(Promptly, With(t1, "c", c, {}), t2);
    OldEntriesShip(t2);
  }

  /** "a" once the log of "c" has replaced its own. Its match index for "b" stays. */
  function Overruled(): Site {
    M("a", PA, Follower, 4, None, Some("c"), [E2], 0, false, Durable(4, None, [E2], 0, 0), Some(R2))
  }

  lemma TakesRival(w: Site)
    requires w == Leads("a", PA, 3, [E1, E1], 0, Some(R2))
    ensures Took(w, SEND4) == Overruled() && Answer(w, SEND4) == AppendResponse(4, true)
  {
    assert [E1, E1][..1] == [E1] && [E1][..0] == [];
    assert Merge([E1, E1], 0, 0, [E2]) == [E2] by {
      assert CutStale([E1, E1], 0, 1) == [E1] && [E1][..0] + [E2][0..] == [E2];
    }
  }

  lemma RivalSends(t: Trio)
    requires Reachable(Promptly, t) && t.a == Leads("a", PA, 3, [E1, E1], 0, Some(R2))
    requires t.c == Leads("c", PC, 4, [E2], 0, Some(RC1))
    ensures Reachable(Promptly, Trio(Overruled(), t.b, t.c, {}))
  {
    hide Reachable, Took, Answer;
    assert CallOf(t.c, "a") == SEND4;
    Calls(Promptly, t, "c", "a");
    var t1 := With(t, "c", DoReplicate(t.c, "a").0, {Append("a", SEND4)});
    Takes(Promptly, t1, "a", SEND4);
    TakesRival(t.a);
    var t2 := With(t1, "a", Overruled(), {AppendReply("a", SEND4, AppendResponse(4, true))});
    GivesUpOn(Promptly, t2, "c", "a");
    assert Land(Launch(RC1, "a"), "a") == RC1 && t2.c.calls - {"a"} == map[];
    LessMail(Promptly, With(t2, "c", t.c, {}), Trio(Overruled(), t.b, t.c, {}));
  }

  /** "c" wins term 4 and overwrites the log of "a", but does not hear of it. */
  lemma RivalOverwrites()
    ensures Reachable(Promptly, Trio(Overruled(), Follows("b", PB, 4, "c", None, [E1, E1], 0, None),
                                     Leads("c", PC, 4, [E2], 0, Some(RC1)), {}))
  {
    hide Reachable;
    OldEntriesAcknowledged();
    var a := Leads("a", PA, 3, [E1, E1], 0, Some(R2));
    var t := Trio(a, Follows("b", PB, 3, "a", Some("a"), [E1, E1], 0, None),
                  M("c", PC, Follower, 3, None, None, [E2], 0, true, D(2, "c", [E2]), Some(RC1)), {});
    var ask := VoteRequest(4, "c", 1, 2);
    assert Ask(t.c) == ask;
    var b := Follows("b", PB, 4, "c", None, [E1, E1], 0, None);
    assert Crowned(t.c) == Leads("c", PC, 4, [E2], 0, Some(RC1)) && Voted(t.b, ask) == b;
    IsWarranted(With(With(t, "b", b, {Solicit(ask), Ballot("b", ask)}), "c", Crowned(t.c), {}), "c");
    Elect(Promptly, t, "c", "b");
    var t1 := Trio(a, b, Leads("c", PC, 4, [E2], 0, Some(RC1)), {});
    LessMail(Promptly, With(With(t, "b", b, {Solicit(ask), Ballot("b", ask)}), "c", t1.c, {}), t1);
    RivalSends(t1);
  }

  /** "b" on a campaign of its own for term 6. */
  function Estranged(): Site {
    Site(NodeState("b", PB, Candidate, 6, Some("b"), None, [E1, E1], 0, 0, 0, 0, false), D(6, "b", [E1, E1]),
         Soliciting(VoteRequest(6, "b", 2, 1), {}), {}, None, map[])
  }

  lemma LeavesForLater()
    ensures Reachable(Promptly, Trio(Overruled(), Estranged(), Leads("c", PC, 4, [E2], 0, Some(RC1)), {}))
  {
    hide Reachable;
    RivalOverwrites();
    var t := Trio(Overruled(), Follows("b", PB, 4, "c", None, [E1, E1], 0, None), Leads("c", PC, 4, [E2], 0, Some(RC1)), {});
    Loses(Promptly, t, "b");
    var b := M("b", PB, Follower, 5, None, None, [E1, E1], 0, true, D(5, "b", [E1, E1]), None);
    assert Beaten(t.b) == b;
    var t1 := With(t, "b", b, {});
    Campaigns(Promptly, t1, "b");
    assert Running(b, {}) == Estranged();
    LessMail(Promptly, With(t1, "b", Estranged(), {Solicit(Ask(b))}), Trio(t.a, Estranged(), t.c, {}));
  }

  /** "a" wins term 5. Its match index for "b" is beyond its log, and warranted. */
  lemma WarrantedVictory()
    ensures Reachable(Promptly, Trio(Leads("a", PA, 5, [E2], 0, Some(R2)), Estranged(),
                                     Follows("c", PC, 5, "a", None, [E2], 0, Some(RC1)), {}))
  {
    hide Reachable;
    LeavesForLater();
    var t := Trio(Overruled(), Estranged(), Leads("c", PC, 4, [E2], 0, Some(RC1)), {});
    var ask := VoteRequest(5, "a", 1, 2);
    assert Ask(t.a) == ask;
    var c := Follows("c", PC, 5, "a", None, [E2], 0, Some(RC1));
    assert Crowned(t.a) == Leads("a", PA, 5, [E2], 0, Some(R2)) && Voted(t.c, ask) == c;
    IsWarranted(With(With(t, "c", c, {Solicit(ask), Ballot("c", ask)}), "a", Crowned(t.a), {}), "a");
    Elect(Promptly, t, "a", "c");
    LessMail(Promptly, With(With(t, "c", c, {Solicit(ask), Ballot("c", ask)}), "a", Crowned(t.a), {}),
             Trio(Crowned(t.a), Estranged(), c, {}));
  }

  /** "a" waiting for an answer from "c", with `log` in memory. */
  function Waiting(log: seq<Entry>): Site {
    M("a", PA, Leader, 5, Some("a"), Some("a"), log, 0, log != [E2], D(5, "a", [E2]), Some(Launch(R2, "c")))
    .(calls := map["c" := SEND5])
  }

  const REPLY5 := AppendReply("c", SEND5, AppendResponse(5, true))

  lemma TakesNothingNew(w: Site)
    requires w == Follows("c", PC, 5, "a", None, [E2], 0, Some(RC1))
    ensures Took(w, SEND5) == Follows("c", PC, 5, "a", Some("a"), [E2], 0, Some(RC1))
    ensures Answer(w, SEND5) == AppendResponse(5, true)
  {
    var l := [E2];
    assert MergeFrom(l, 0, 0, l, 1) == l && !MergeChanges(l, 0, 0, l, 1);
    assert CutStale(l, 0, 0 + |l|) == l && l[1 - 0 - 1].term == l[0].term;
    assert MergeFrom(l, 0, 0, l, 0) == l && !MergeChanges(l, 0, 0, l, 0);
  }

  /** "c" confirms the entry it has; meanwhile "a" proposes another. */
  lemma Confirmed()
    ensures Reachable(Promptly, Trio(Waiting([E2, E5]), Estranged(),
                                     Follows("c", PC, 5, "a", Some("a"), [E2], 0, Some(RC1)), {REPLY5}))
  {
    hide Reachable, Took, Answer;
    WarrantedVictory();
    var t := Trio(Leads("a", PA, 5, [E2], 0, Some(R2)), Estranged(), Follows("c", PC, 5, "a", None, [E2], 0, Some(RC1)), {});
    assert CallOf(t.a, "c") == SEND5;
    Calls(Promptly, t, "a", "c");
    var t1 := With(t, "a", Waiting([E2]), {Append("c", SEND5)});
    assert DoReplicate(t.a, "c").0 == Waiting([E2]);
    Takes(Promptly, t1, "c", SEND5);
    TakesNothingNew(t.c);
    var c := Follows("c", PC, 5, "a", Some("a"), [E2], 0, Some(RC1));
    var t2 := Trio(Waiting([E2]), t.b, c, {REPLY5});
    LessMail(Promptly, With(t1, "c", c, {REPLY5}), t2);
    Proposes(Promptly, t2, "a", Clear);
    assert [E2] + [E5] == [E2, E5];
    assert With(t2, "a", t2.a.(node := AppendOwn(t2.a.node, Clear)), {}) == Trio(Waiting([E2, E5]), t.b, c, {REPLY5});
  }

  lemma CountsTheEstranged(s: Site)
    requires s == Waiting([E2, E5])
    ensures var s1 := DoReceiveAppendReply(s, "c", AppendResponse(5, true)).0;
            s1.node.role == Leader && s1.node.term == 5 && s1.node.commitIndex == 2 && s1.node.log == [E2, E5]
  {
    var r := Acknowledge(Land(Launch(R2, "c"), "c"), "c", 1);
    TwoMarks(r.matchIndex, 2, 1);
    assert Matches(s.node, r) == [2, 2, 1];
    SortedMarks(2, 2, 1);
  }

  /** "c" is beaten in term 6 and wins term 7 with the vote of "b". */
  lemma LaterLeader(t: Trio)
    requires Reachable(Promptly, t) && t.b == Estranged()
    requires t.c == Follows("c", PC, 5, "a", Some("a"), [E2], 0, Some(RC1))
    ensures exists b :: Reachable(Promptly, Trio(t.a, b, Leads("c", PC, 7, [E2], 0, Some(RC1)), {}))
  {
    hide Reachable;
    Loses(Promptly, t, "c");
    var c := M("c", PC, Follower, 6, None, None, [E2], 0, true, D(6, "c", [E2]), Some(RC1));
    assert Beaten(t.c) == c;
    var t1 := With(t, "c", c, {});
    var ask := VoteRequest(7, "c", 1, 2);
    assert Ask(c) == ask;
    var b := Voted(t.b, ask);
    assert Crowned(c) == Leads("c", PC, 7, [E2], 0, Some(RC1)) && DecideVote(t.b.node, ask).1.granted;
    IsWarranted(With(With(t1, "b", b, {Solicit(ask), Ballot("b", ask)}), "c", Crowned(c), {}), "c");
    Elect(Promptly, t1, "c", "b");
    LessMail(Promptly, With(With(t1, "b", b, {Solicit(ask), Ballot("b", ask)}), "c", Crowned(c), {}),
             Trio(t.a, b, Crowned(c), {}));
  }

  /** Warranted match indexes are not enough for leader completeness: a clean and
      smooth run, prompt and with warranted victories, that ends with a leader of
      term 7 whose log is shorter than what the leader of term 5 has committed. */
  lemma WarrantedIsNotEnough() returns (steps: seq<Step>)
    ensures Initial(Start()) && IsCleanRun(Start(), steps) && SmoothRun(steps) && IsRunOf(Promptly, Start(), steps)
    ensures IsRun(Start(), steps)
    ensures var r := After(Start(), steps).sites;
            && r.Keys == {"a", "b", "c"}
            && r["a"].node.role == Leader && r["a"].node.term == 5 && r["a"].node.commitIndex == 2 == |r["a"].node.log|
            && r["c"].node.role == Leader && r["c"].node.term == 7 && |r["c"].node.log| == 1
  {
    hide Reachable, Initial, IsRun, IsCleanRun, IsRunOf, After, DoReceiveAppendReply;
    StartIsInitial();
    Confirmed();
    var t := Trio(Waiting([E2, E5]), Estranged(), Follows("c", PC, 5, "a", Some("a"), [E2], 0, Some(RC1)), {REPLY5});
    CountsTheEstranged(t.a);
    Hears(Promptly, t, "a", "c", AppendResponse(5, true));
    var a := DoReceiveAppendReply(t.a, "c", AppendResponse(5, true)).0;
    LaterLeader(With(t, "a", a, {}));
    var b :| Reachable(Promptly, Trio(a, b, Leads("c", PC, 7, [E2], 0, Some(RC1)), {}));
    steps := RunTo(Promptly, Trio(a, b, Leads("c", PC, 7, [E2], 0, Some(RC1)), {}));
  }
}
