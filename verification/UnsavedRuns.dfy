/** Two runs of a three-machine cluster in which an entry is committed that only one
    disk holds. No save fails, every request is delivered promptly, and every
    winner has warranted match indexes. */
module UnsavedRuns {
  import opened Basics
  import opened Commands
  import opened RaftNode
  import opened MergeExactness
  import opened Commit
  import opened LeaderLogic
  import opened Cluster
  import opened Runs
  import opened Leftovers

  const FIRST := AppendRequest(1, "a", 0, 0, [E1], 0)
  const YES := AppendReply("b", FIRST, AppendResponse(1, true))

  // ---- a second copy of a request overtakes the save of the first ----

  /** "a" waiting for "b". */
  function Sending(): Site { DoReplicate(Boss([E1], 0, Q0), "b").0 }

  /** "b" with the entry in memory only. */
  function Unsaved(): Site {
    M("b", PB, Follower, 1, Some("a"), Some("a"), [E1], 0, true, D(1, "a", []), None).(pending := {PendingAppend(FIRST, 1)})
  }

  lemma TakenOnce(w: NodeState)
    requires w == Follows("b", PB, 1, "a", None, [], 0, None).node
    ensures DecideAppend(w, FIRST) == AppendOutcome(Unsaved().node, AppendResponse(1, true), true)
  {
    assert CutStale([], 0, 1) == [] && [] + [E1][0..] == [E1];
    assert Merge([], 0, 0, [E1]) == [E1];
  }

  lemma TakenTwice(w: NodeState)
    requires w == Unsaved().node
    ensures DecideAppend(w, FIRST) == AppendOutcome(w, AppendResponse(1, true), false)
  {
    var l := [E1];
    assert MergeFrom(l, 0, 0, l, 1) == l && !MergeChanges(l, 0, 0, l, 1);
    assert CutStale(l, 0, 0 + |l|) == l && l[1 - 0 - 1].term == l[0].term;
    assert MergeFrom(l, 0, 0, l, 0) == l && !MergeChanges(l, 0, 0, l, 0);
  }

  lemma Receives(t: Trio, out: AppendOutcome)
    requires Reachable(Promptly, t) && t.a == Sending() && t.b.node.id == "b" && Append("b", FIRST) in t.mail
    requires DecideAppend(t.b.node, FIRST) == out
    ensures Reachable(Promptly,
              if out.changed
              then With(t, "b", t.b.(node := out.state, pending := t.b.pending + {PendingAppend(FIRST, out.resp.term)}), {})
              else With(t, "b", t.b.(node := out.state), {AppendReply("b", FIRST, out.resp)}))
  {
    hide Reachable, DecideAppend, WarrantedWin;
    assert t.a.calls == map["b" := FIRST] && t.a.node.role == Leader && t.a.node.term == 1;
    Go(Promptly, t, ReceiveAppend("b", FIRST));
  }

  lemma SendingIs()
    ensures Sending() == DoReplicate(Boss([E1], 0, Q0), "b").0
  {}

  lemma UnsavedIs(b: Site)
    requires b == Follows("b", PB, 1, "a", None, [], 0, None)
    ensures b.(node := Unsaved().node, pending := b.pending + {PendingAppend(FIRST, 1)}) == Unsaved()
    ensures Unsaved().node.id == "b"
  {
    assert {} + {PendingAppend(FIRST, 1)} == {PendingAppend(FIRST, 1)};
  }

  /** The first copy waits for its save; the second finds nothing to change. */
  lemma SecondCopyAccepted()
    ensures Reachable(Promptly, Trio(Sending(), Unsaved(), Follows("c", PC, 1, "a", None, [], 0, None), {YES}))
  {
    hide Reachable, DecideAppend, Unsaved, Sending;
    RequestsAstray(Promptly);
    var b, c := Follows("b", PB, 1, "a", None, [], 0, None), Follows("c", PC, 1, "a", None, [], 0, None);
    var t := Trio(Boss([E1], 0, Q0), b, c, OLD_MAIL);
    assert [E1][0..] == [E1];
    CallIs(t.a, "b", 1);
    Calls(Promptly, t, "a", "b");
    var t1 := Trio(Sending(), b, c, OLD_MAIL + {Append("b", FIRST)});
    SendingIs();
    assert With(t, "a", Sending(), {Append("b", FIRST)}) == t1;
    TakenOnce(b.node);
    Receives(t1, DecideAppend(b.node, FIRST));
    UnsavedIs(b);
    var t2 := With(t1, "b", Unsaved(), {});
    TakenTwice(Unsaved().node);
    Receives(t2, DecideAppend(Unsaved().node, FIRST));
    LessMail(Promptly, With(t2, "b", Unsaved(), {YES}), Trio(Sending(), Unsaved(), c, {YES}));
  }

  lemma CalledIs(s: Site)
    requires s.node.base == 0
    ensures Called(s, "b", AppendResponse(1, true))
            == DoReceiveAppendReply(DoReplicate(s, "b").0, "b", AppendResponse(1, true)).0
  {}

  lemma SecondCopyCommits()
    ensures Reachable(Promptly, Trio(Boss([E1], 1, Q1), Unsaved(), Follows("c", PC, 1, "a", None, [], 0, None), {YES}))
  {
    hide Reachable, Called, CallOf, Acknowledge, Land, Launch, Unsaved, OnAppendReply;
    SecondCopyAccepted();
    var t := Trio(Sending(), Unsaved(), Follows("c", PC, 1, "a", None, [], 0, None), {YES});
    assert [E1][0..] == [E1];
    CallIs(Boss([E1], 0, Q0), "b", 1);
    Hears(Promptly, t, "a", "b", AppendResponse(1, true));
    Books1();
    Acks(Boss([E1], 0, Q0), "b", FIRST, Q1, 1, 1, 0);
    CalledIs(Boss([E1], 0, Q0));
    assert With(t, "a", Boss([E1], 1, Q1), {}) == Trio(Boss([E1], 1, Q1), Unsaved(), t.c, {YES});
  }

  /** An append acknowledged before it is saved: a clean and smooth run, with every
      request delivered promptly, at whose end the leader has committed an entry
      that is on no other disk. If "b" then crashes, no other machine holds it. */
  lemma AcknowledgedBeforeSaved() returns (steps: seq<Step>)
    ensures Initial(Start()) && IsCleanRun(Start(), steps) && SmoothRun(steps) && IsRunOf(Promptly, Start(), steps)
    ensures IsRun(Start(), steps)
    ensures var r := After(Start(), steps).sites;
            && r.Keys == {"a", "b", "c"}
            && r["a"].node.role == Leader && r["a"].node.commitIndex == 1 && r["a"].node.log == [E1]
            && r["b"].disk.log == r["c"].disk.log == []
    ensures IsCleanRun(Start(), steps + [Crash("b")]) && IsRun(Start(), steps + [Crash("b")])
    ensures var r := After(Start(), steps + [Crash("b")]).sites;
            && r.Keys == {"a", "b", "c"} && r["a"].node.commitIndex == 1
            && r["b"].node.log == r["b"].disk.log == r["c"].node.log == r["c"].disk.log == []
  {
    hide Reachable, Initial, IsRun, IsCleanRun, IsRunOf, After;
    StartIsInitial();
    SecondCopyCommits();
    var t := Trio(Boss([E1], 1, Q1), Unsaved(), Follows("c", PC, 1, "a", None, [], 0, None), {YES});
    steps := RunTo(Promptly, t);
    Extend(Start(), steps, Crash("b"));
    ExtendClean(Start(), steps, Crash("b"));
  }

  // ---- a proposal is sent before it is saved ----

  lemma CommitsUnsaved(s: Site)
    requires s == M("a", PA, Leader, 1, Some("a"), Some("a"), [E1], 0, true, D(1, "a", []), Some(R0))
    requires CallOf(s, "b") == FIRST
    ensures var s1 := Called(s, "b", AppendResponse(1, true));
            s1.node.role == Leader && s1.node.commitIndex == 1 && s1.node.log == [E1] && s1.disk.log == []
  {
    var r := Acknowledge(Land(Launch(R0, "b"), "b"), "b", 1);
    TwoMarks(r.matchIndex, 1, 0);
    assert Matches(s.node, r) == [1, 1, 0];
    SortedMarks(1, 1, 0);
  }

  /** A proposal sent before it is saved: a clean and smooth run, with every request
      delivered promptly and handled with nothing waiting for a save, at whose end
      the leader has committed an entry that is on one disk of three. */
  lemma CommittedBeforeSaved() returns (steps: seq<Step>)
    ensures Initial(Start()) && IsCleanRun(Start(), steps) && SmoothRun(steps) && IsRunOf(Unhurriedly, Start(), steps)
    ensures IsRun(Start(), steps)
    ensures var r := After(Start(), steps).sites;
            && r.Keys == {"a", "b", "c"}
            && r["a"].node.role == Leader && r["a"].node.commitIndex == 1 && r["a"].node.log == [E1]
            && r["a"].disk.log == r["c"].disk.log == []
  {
    hide Reachable, Initial, IsRun, IsCleanRun, IsRunOf, After, Called, Took, Answer;
    StartIsInitial();
    UnsavedEntry(Unhurriedly);
    var b, c := Follows("b", PB, 1, "a", None, [], 0, None), Follows("c", PC, 1, "a", None, [], 0, None);
    var t := Trio(M("a", PA, Leader, 1, Some("a"), Some("a"), [E1], 0, true, D(1, "a", []), Some(R0)), b, c, {});
    assert [E1][0..] == [E1] && [] + [E1] == [E1] && CallOf(t.a, "b") == FIRST;
    Ships(Unhurriedly, t, "a", "b");
    Appends(t.b, FIRST, [E1]);
    CommitsUnsaved(t.a);
    steps := RunTo(Unhurriedly, With(With(t, "b", Took(t.b, FIRST), {}), "a", Called(t.a, "b", AppendResponse(1, true)), {}));
  }
}
