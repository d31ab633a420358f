/** Two clean runs of a three-machine cluster, from the initial state, in which
    something a machine left behind does harm: a match index from an earlier
    leadership, and an append request delivered late. */
module Leftovers {
  import opened Basics
  import opened Commands
  import opened RaftNode
  import opened Commit
  import opened LeaderLogic
  import opened Cluster
  import opened Runs
  import Replication

  function M(id: NodeId, peers: seq<NodeId>, role: Role, term: int, vote: Option<NodeId>, leader: Option<NodeId>,
             log: seq<Entry>, commit: int, dirty: bool, disk: Durable, repl: Option<Repl>): Site {
    Site(NodeState(id, peers, role, term, vote, leader, log, 0, 0, commit, 0, dirty), disk, Idle, {}, repl, map[])
  }

  function D(term: int, vote: NodeId, log: seq<Entry>): Durable { Durable(term, Some(vote), log, 0, 0) }

  /** A machine in step with its disk, following `leader`. */
  function Follows(id: NodeId, peers: seq<NodeId>, term: int, vote: NodeId, leader: Option<NodeId>,
                   log: seq<Entry>, commit: int, repl: Option<Repl>): Site {
    M(id, peers, Follower, term, Some(vote), leader, log, commit, false, D(term, vote, log), repl)
  }

  /** A leader in step with its disk. */
  function Leads(id: NodeId, peers: seq<NodeId>, term: int, log: seq<Entry>, commit: int, repl: Option<Repl>): Site {
    M(id, peers, Leader, term, Some(id), Some(id), log, commit, false, D(term, id, log), repl)
  }

  lemma RunTo(m: Manner, t: Trio) returns (steps: seq<Step>)
    requires Reachable(m, t)
    ensures Arrives(m, steps, t)
  {
    hide Arrives;
    steps :| Arrives(m, steps, t);
  }

  lemma FreshIsWarranted(t: Trio, n: NodeId)
    requires Named(n) && Pick(t, n).repl == None
    ensures Warranted(t, n)
  {
    IsWarranted(t, n);
  }

  // ---- a match index outlives the logs it was about ----

  const E1 := Entry(1, Clear)
  const E3 := Entry(3, Clear)
  const ASK1 := VoteRequest(1, "a", 0, 0)
  const LATE := AppendRequest(2, "c", 0, 0, [], 0)
  const R0 := Repl(map["b" := 1, "c" := 1], map[], map["b" := false], map[])
  const RC1 := Repl(map["a" := 1, "b" := 1], map[], map["a" := false], map[])
  const RC := Repl(map["a" := 1, "b" := 1], map[], map["a" := false, "b" := false], map[])
  const R2 := Repl(map["b" := 3, "c" := 1], map["b" := 2], map["b" := false], map["b" := 0])

  /** "a" leads term 1 with everyone's vote. */
  lemma FirstLeader(m: Manner)
    ensures Reachable(m, Trio(Leads("a", PA, 1, [], 0, None), Follows("b", PB, 1, "a", None, [], 0, None),
                         Follows("c", PC, 1, "a", None, [], 0, None), {}))
  {
    hide Reachable;
    FromTheStart(m);
    var t := Trio(Fresh("a", PA), Fresh("b", PB), Fresh("c", PC), {});
    assert Ask(t.a) == ASK1;
    FreshIsWarranted(With(With(t, "b", Voted(t.b, ASK1), {Solicit(ASK1), Ballot("b", ASK1)}), "a", Crowned(t.a), {}), "a");
    Elect(m, t, "a", "b");
    var t1 := Trio(Leads("a", PA, 1, [], 0, None), Follows("b", PB, 1, "a", None, [], 0, None), Fresh("c", PC),
                   {Solicit(ASK1), Ballot("b", ASK1)});
    assert With(With(t, "b", Voted(t.b, ASK1), {Solicit(ASK1), Ballot("b", ASK1)}), "a", Crowned(t.a), {}) == t1;
    Votes(m, t1, "c", ASK1);
    assert Voted(t1.c, ASK1) == Follows("c", PC, 1, "a", None, [], 0, None);
    LessMail(m, With(t1, "c", Voted(t1.c, ASK1), {Ballot("c", ASK1)}),
             Trio(t1.a, t1.b, Follows("c", PC, 1, "a", None, [], 0, None), {}));
  }

  /** It builds its bookkeeping and logs an entry it has not saved. */
  lemma UnsavedEntry(m: Manner)
    ensures Reachable(m, Trio(M("a", PA, Leader, 1, Some("a"), Some("a"), [E1], 0, true, D(1, "a", []), Some(R0)),
                              Follows("b", PB, 1, "a", None, [], 0, None), Follows("c", PC, 1, "a", None, [], 0, None), {}))
  {
    hide Reachable;
    FirstLeader(m);
    var b, c := Follows("b", PB, 1, "a", None, [], 0, None), Follows("c", PC, 1, "a", None, [], 0, None);
    var t := Trio(Leads("a", PA, 1, [], 0, None), b, c, {});
    assert FreshRepl(t.a.node).nextIndex == map["b" := 1, "c" := 1];
    LosesCall(m, t, "a", "b");
    var t1 := Trio(Leads("a", PA, 1, [], 0, Some(R0)), b, c, {});
    LessMail(m, With(t, "a", t1.a, {Append("b", CallOf(t.a, "b"))}), t1);
    Proposes(m, t1, "a", Clear);
    assert [] + [E1] == [E1];
    assert With(t1, "a", t1.a.(node := AppendOwn(t1.a.node, Clear)), {})
        == Trio(M("a", PA, Leader, 1, Some("a"), Some("a"), [E1], 0, true, D(1, "a", []), Some(R0)), b, c, {});
  }

  /** Nobody hears of that entry or of the next, and the leader steps down. */
  lemma UnheardEntries(m: Manner)
    ensures Reachable(m, Trio(M("a", PA, Follower, 1, None, None, [E1, E1], 0, true, D(1, "a", []), Some(R0)),
                              Follows("b", PB, 1, "a", None, [], 0, None), Follows("c", PC, 1, "a", None, [], 0, None), {}))
  {
    hide Reachable;
    UnsavedEntry(m);
    var b, c := Follows("b", PB, 1, "a", None, [], 0, None), Follows("c", PC, 1, "a", None, [], 0, None);
    var t := Trio(M("a", PA, Leader, 1, Some("a"), Some("a"), [E1], 0, true, D(1, "a", []), Some(R0)), b, c, {});
    Proposes(m, t, "a", Clear);
    assert [E1] + [E1] == [E1, E1];
    var t1 := Trio(M("a", PA, Leader, 1, Some("a"), Some("a"), [E1, E1], 0, true, D(1, "a", []), Some(R0)), b, c, {});
    assert With(t, "a", t.a.(node := AppendOwn(t.a.node, Clear)), {}) == t1;
    StepsDown(m, t1, "a");
  }

  lemma CallsA(m: Manner, t: Trio)
    requires Reachable(m, t) && t.c == Leads("c", PC, 2, [], 0, None)
    ensures Reachable(m, With(t, "c", Leads("c", PC, 2, [], 0, Some(RC1)), {Append("a", LATE)}))
  {
    hide Reachable;
    assert FreshRepl(t.c.node).nextIndex == map["a" := 1, "b" := 1];
    assert CallOf(t.c, "a") == LATE;
    LosesCall(m, t, "c", "a");
  }

  lemma CallsB(t: Trio)
    requires Reachable(Anyhow, t) && t.c == Leads("c", PC, 2, [], 0, Some(RC1))
    ensures Reachable(Anyhow, With(t, "c", Leads("c", PC, 2, [], 0, Some(RC)), {Append("b", LATE)}))
  {
    hide Reachable;
    assert CallOf(t.c, "b") == LATE;
    assert Land(RC1, "b") == RC;
    LosesCall(Anyhow, t, "c", "b");
  }

  lemma CallsBoth(t: Trio)
    requires Reachable(Anyhow, t) && t.c == Leads("c", PC, 2, [], 0, None)
    ensures Reachable(Anyhow, Trio(t.a, t.b, Leads("c", PC, 2, [], 0, Some(RC)), {Append("a", LATE), Append("b", LATE)}))
  {
    hide Reachable, Leads;
    CallsA(Anyhow, t);
    var t1 := With(t, "c", Leads("c", PC, 2, [], 0, Some(RC1)), {Append("a", LATE)});
    CallsB(t1);
    LessMail(Anyhow, With(t1, "c", Leads("c", PC, 2, [], 0, Some(RC)), {Append("b", LATE)}),
             Trio(t.a, t.b, Leads("c", PC, 2, [], 0, Some(RC)), {Append("a", LATE), Append("b", LATE)}));
  }

  /** "c", whose log is empty, wins term 2 with the vote of "b", sends an empty
      request to both peers, and steps down without an answer. */
  lemma EmptyHandedLeader()
    ensures Reachable(Anyhow, Trio(M("a", PA, Follower, 1, None, None, [E1, E1], 0, true, D(1, "a", []), Some(R0)),
                           Follows("b", PB, 2, "c", None, [], 0, None),
                           M("c", PC, Follower, 2, None, None, [], 0, true, D(2, "c", []), Some(RC)),
                           {Append("a", LATE), Append("b", LATE)}))
  {
    hide Reachable;
    UnheardEntries(Anyhow);
    var a := M("a", PA, Follower, 1, None, None, [E1, E1], 0, true, D(1, "a", []), Some(R0));
    var t := Trio(a, Follows("b", PB, 1, "a", None, [], 0, None), Follows("c", PC, 1, "a", None, [], 0, None), {});
    Elect(Anyhow, t, "c", "b");
    var b := Follows("b", PB, 2, "c", None, [], 0, None);
    var t1 := Trio(a, b, Leads("c", PC, 2, [], 0, None), {});
    assert Crowned(t.c) == t1.c && Voted(t.b, Ask(t.c)) == b;
    LessMail(Anyhow, With(With(t, "b", b, {Solicit(Ask(t.c)), Ballot("b", Ask(t.c))}), "c", t1.c, {}), t1);
    CallsBoth(t1);
    var t2 := Trio(a, b, Leads("c", PC, 2, [], 0, Some(RC)), {Append("a", LATE), Append("b", LATE)});
    StepsDown(Anyhow, t2, "c");
    assert With(t2, "c", t2.c.(node := BecomeFollower(t2.c.node, 2, None)), {})
        == Trio(a, b, M("c", PC, Follower, 2, None, None, [], 0, true, D(2, "c", []), Some(RC)), t2.mail);
  }

  lemma TakesTwo(w: Site, req: AppendRequest, term: int, vote: NodeId)
    requires w == Follows("b", PB, term, vote, None, [], 0, None) && req == AppendRequest(term, "a", 0, 0, [E1, E1], 0)
    ensures Took(w, req) == Follows("b", PB, term, vote, Some("a"), [E1, E1], 0, None)
    ensures Answer(w, req) == AppendResponse(term, true)
  {
    assert Merge([], 0, 0, [E1, E1]) == [E1, E1] by {
      assert CutStale([], 0, 2) == [] && [] + [E1, E1][0..] == [E1, E1];
    }
  }

  lemma TwoMarks(m: map<NodeId, int>, x: int, y: int)
    requires At(m, "b") == x && At(m, "c") == y
    ensures Marks(PA, m) == [x, y]
  {
    assert PA[1..] == ["c"] && ["c"][1..] == [];
    assert Marks(["c"], m) == [y];
  }

  /** With three machines the threshold is the middle mark. */
  lemma SortedMarks(x: int, y: int, z: int)
    requires x >= y >= z
    ensures Threshold([x, y, z]) == y
  {
    var m := [x, y, z];
    assert m[1..] == [y, z] && m[1..][1..] == [z] && m[1..][1..][1..] == [];
    assert Reached(m[1..][1..], y) + Reached(m[1..][1..], y + 1) <= 1;
    ThresholdIsMajorityIndex(m, y);
    ThresholdIsMajorityIndex(m, y + 1);
  }

  lemma AckTwo(s: Site, req: AppendRequest, term: int)
    requires s == Leads("a", PA, term, [E1, E1], 0, Some(R0)) && term > 1
    requires CallOf(s, "b") == req == AppendRequest(term, "a", 0, 0, [E1, E1], 0)
    ensures Called(s, "b", AppendResponse(term, true)) == Leads("a", PA, term, [E1, E1], 0, Some(R2))
  {
    var r := Acknowledge(Land(Launch(R0, "b"), "b"), "b", 2);
    assert r == R2;
    TwoMarks(R2.matchIndex, 2, 0);
    assert Matches(s.node, R2) == [2, 2, 0];
    SortedMarks(2, 2, 0);
    assert map["b" := req] - {"b"} == map[];
  }

  /** "a" wins term 2 after all, and "b" truthfully acknowledges its two entries.
      They are of term 1, so nothing is committed. */
  lemma TruthfulAcknowledgement()
    ensures Reachable(Anyhow, Trio(Leads("a", PA, 2, [E1, E1], 0, Some(R2)),
                           Follows("b", PB, 2, "c", Some("a"), [E1, E1], 0, None),
                           Follows("c", PC, 2, "a", None, [], 0, Some(RC)),
                           {Append("a", LATE), Append("b", LATE)}))
  {
    hide Reachable;
    EmptyHandedLeader();
    var mail := {Append("a", LATE), Append("b", LATE)};
    var b := Follows("b", PB, 2, "c", None, [], 0, None);
    var t := Trio(M("a", PA, Follower, 1, None, None, [E1, E1], 0, true, D(1, "a", []), Some(R0)), b,
                  M("c", PC, Follower, 2, None, None, [], 0, true, D(2, "c", []), Some(RC)), mail);
    Elect(Anyhow, t, "a", "c");
    var t1 := Trio(Leads("a", PA, 2, [E1, E1], 0, Some(R0)), b, Follows("c", PC, 2, "a", None, [], 0, Some(RC)), mail);
    assert Crowned(t.a) == t1.a && Voted(t.c, Ask(t.a)) == t1.c;
    LessMail(Anyhow, With(With(t, "c", t1.c, {Solicit(Ask(t.a)), Ballot("c", Ask(t.a))}), "a", t1.a, {}), t1);
    Ships(Anyhow, t1, "a", "b");
    var req := AppendRequest(2, "a", 0, 0, [E1, E1], 0);
    assert CallOf(t1.a, "b") == req;
    TakesTwo(t1.b, req, 2, "c");
    AckTwo(t1.a, req, 2);
    var t2 := With(With(t1, "b", Took(t1.b, req), {}), "a", Called(t1.a, "b", AppendResponse(2, true)), {});
    LessMail(Anyhow, t2,
             Trio(Leads("a", PA, 2, [E1, E1], 0, Some(R2)), Follows("b", PB, 2, "c", Some("a"), [E1, E1], 0, None), t1.c,
                  mail));
  }

  /** An empty request from the start of the log cuts all of a follower's log
      and leaves its commit index alone. */
  lemma CutsAll(w: Site, req: AppendRequest)
    requires w.node.base == 0 && w.node.role == Follower && !w.node.dirty && w.disk == ToDisk(w.node)
    requires w.node.log != []
    requires req == AppendRequest(w.node.term, req.leader, 0, 0, [], req.leaderCommit)
    requires req.leaderCommit <= w.node.commitIndex
    ensures Took(w, req) == w.(node := w.node.(leaderId := Some(req.leader), log := []), disk := w.disk.(log := []))
  {
    assert w.node.log[..0] == [];
  }

  lemma DethronesAll(s: Site)
    requires s == Leads("a", PA, 2, [E1, E1], 0, Some(R2))
    ensures Took(s, LATE) == M("a", PA, Follower, 2, None, Some("c"), [], 0, false, Durable(2, None, [], 0, 0), Some(R2))
  {
    assert [E1, E1][..0] == [];
  }

  /** The late requests of "c" cut both logs, "a" wins term 3 with an empty log,
      and its match index for "b" still says 2. */
  lemma StaleLeader()
    ensures Reachable(Anyhow, Trio(Leads("a", PA, 3, [], 0, Some(R2)), Follows("b", PB, 2, "c", Some("c"), [], 0, None),
                           Follows("c", PC, 3, "a", None, [], 0, Some(RC)), {}))
  {
    hide Reachable;
    TruthfulAcknowledgement();
    var mail := {Append("a", LATE), Append("b", LATE)};
    var c := Follows("c", PC, 2, "a", None, [], 0, Some(RC));
    var t := Trio(Leads("a", PA, 2, [E1, E1], 0, Some(R2)), Follows("b", PB, 2, "c", Some("a"), [E1, E1], 0, None), c, mail);
    CutsAll(t.b, LATE);
    Takes(Anyhow, t, "b", LATE);
    var b := Follows("b", PB, 2, "c", Some("c"), [], 0, None);
    var t1 := Trio(t.a, b, c, mail);
    LessMail(Anyhow, With(t, "b", b, {AppendReply("b", LATE, Answer(t.b, LATE))}), t1);
    DethronesAll(t1.a);
    Takes(Anyhow, t1, "a", LATE);
    var t2 := Trio(Took(t1.a, LATE), b, c, {});
    LessMail(Anyhow, With(t1, "a", t2.a, {AppendReply("a", LATE, Answer(t1.a, LATE))}), t2);
    Elect(Anyhow, t2, "a", "c");
    var t3 := Trio(Leads("a", PA, 3, [], 0, Some(R2)), b, Follows("c", PC, 3, "a", None, [], 0, Some(RC)), {});
    assert Crowned(t2.a) == t3.a && Voted(t2.c, Ask(t2.a)) == t3.c;
    LessMail(Anyhow, With(With(t2, "c", t3.c, {Solicit(Ask(t2.a)), Ballot("c", Ask(t2.a))}), "a", t3.a, {}), t3);
  }

  /** That leadership begins with a match index nothing warrants. */
  lemma StaleLeaderIsUnwarranted()
    ensures var (a, b, c) := (Leads("a", PA, 3, [], 0, Some(R2)), Follows("b", PB, 2, "c", Some("c"), [], 0, None),
                              Follows("c", PC, 3, "a", None, [], 0, Some(RC)));
            var l := Replication.Leadership(3, 0, a.node, R2, map["b" := Replication.Peer(b.node, Replication.Quiet),
                                                                  "c" := Replication.Peer(c.node, Replication.Quiet)]);
            Reachable(Anyhow, Trio(a, b, c, {})) && Replication.Elected(l) && !Replication.Warranted(l, "b")
  {
    hide Reachable;
    StaleLeader();
    assert forall p :: p in PA <==> p == "b" || p == "c";
  }

  const BEAT := AppendRequest(3, "a", 0, 0, [], 0)

  const BEAT_REPLY := AppendReply("c", BEAT, AppendResponse(3, true))

  /** "a" waiting for that answer, with `log` in memory. */
  function Patient(log: seq<Entry>): Site {
    M("a", PA, Leader, 3, Some("a"), Some("a"), log, 0, log != [], D(3, "a", []), Some(Launch(R2, "c")))
    .(calls := map["c" := BEAT])
  }

  /** "c" answers a heartbeat. */
  lemma HeartbeatAnswered()
    ensures Reachable(Anyhow, Trio(Patient([]), Follows("b", PB, 2, "c", Some("c"), [], 0, None),
                           Follows("c", PC, 3, "a", Some("a"), [], 0, Some(RC)), {BEAT_REPLY}))
  {
    hide Reachable;
    StaleLeader();
    var b := Follows("b", PB, 2, "c", Some("c"), [], 0, None);
    var t := Trio(Leads("a", PA, 3, [], 0, Some(R2)), b, Follows("c", PC, 3, "a", None, [], 0, Some(RC)), {});
    assert CallOf(t.a, "c") == BEAT;
    Calls(Anyhow, t, "a", "c");
    var t1 := With(t, "a", DoReplicate(t.a, "c").0, {Append("c", BEAT)});
    Takes(Anyhow, t1, "c", BEAT);
    var t2 := Trio(Patient([]), b, Follows("c", PC, 3, "a", Some("a"), [], 0, Some(RC)), {BEAT_REPLY});
    assert Took(t1.c, BEAT) == t2.c && Answer(t1.c, BEAT) == AppendResponse(3, true) && t1.a == t2.a;
    LessMail(Anyhow, With(t1, "c", t2.c, {BEAT_REPLY}), t2);
  }

  lemma ProposesPatiently(t: Trio, log: seq<Entry>)
    requires Reachable(Anyhow, t) && t.a == Patient(log)
    ensures Reachable(Anyhow, With(t, "a", Patient(log + [E3]), {}))
  {
    hide Reachable;
    Proposes(Anyhow, t, "a", Clear);
  }

  /** Before "a" hears of it two entries are proposed. */
  lemma HeartbeatUnderway()
    ensures Reachable(Anyhow, Trio(Patient([E3, E3]), Follows("b", PB, 2, "c", Some("c"), [], 0, None),
                           Follows("c", PC, 3, "a", Some("a"), [], 0, Some(RC)), {BEAT_REPLY}))
  {
    hide Reachable, Patient, Follows;
    HeartbeatAnswered();
    var b, c := Follows("b", PB, 2, "c", Some("c"), [], 0, None), Follows("c", PC, 3, "a", Some("a"), [], 0, Some(RC));
    var t := Trio(Patient([]), b, c, {BEAT_REPLY});
    ProposesPatiently(t, []);
    var t1 := Trio(Patient([E3]), b, c, {BEAT_REPLY});
    assert [] + [E3] == [E3] && [E3] + [E3] == [E3, E3];
    assert With(t, "a", Patient([E3]), {}) == t1;
    ProposesPatiently(t1, [E3]);
    assert With(t1, "a", Patient([E3, E3]), {}) == Trio(Patient([E3, E3]), b, c, {BEAT_REPLY});
  }

  lemma BeatCommits(s: Site)
    requires s == Patient([E3, E3])
    ensures var s1 := DoReceiveAppendReply(s, "c", AppendResponse(3, true)).0;
            s1.node.role == Leader && s1.node.commitIndex == 2
  {
    var r := Acknowledge(Land(Launch(R2, "c"), "c"), "c", 0);
    TwoMarks(r.matchIndex, 2, 0);
    assert Matches(s.node, r) == [2, 2, 0];
    SortedMarks(2, 2, 0);
  }

  /** A match index outlives the logs it was about: a clean and smooth run that ends
      with a leader whose commitIndex is 2 while no other machine holds a single
      entry, in memory or on disk. */
  lemma StaleMatchCommitsUnheldEntries() returns (steps: seq<Step>)
    ensures Initial(Start()) && IsCleanRun(Start(), steps) && SmoothRun(steps) && IsRun(Start(), steps)
    ensures var r := After(Start(), steps).sites;
            && r.Keys == {"a", "b", "c"}
            && r["a"].node.role == Leader && r["a"].node.commitIndex == 2
            && r["b"].node.log == r["b"].disk.log == r["c"].node.log == r["c"].disk.log == []
  {
    hide Reachable, Initial, IsRun, IsCleanRun, After, DoReceiveAppendReply;
    StartIsInitial();
    HeartbeatUnderway();
    var t := Trio(Patient([E3, E3]),
                  Follows("b", PB, 2, "c", Some("c"), [], 0, None), Follows("c", PC, 3, "a", Some("a"), [], 0, Some(RC)),
                  {BEAT_REPLY});
    BeatCommits(t.a);
    Hears(Anyhow, t, "a", "c", AppendResponse(3, true));
    var t1 := With(t, "a", DoReceiveAppendReply(t.a, "c", AppendResponse(3, true)).0, {});
    steps := RunTo(Anyhow, t1);
  }

  // ---- a late request cuts committed entries ----

  const OLD := AppendRequest(1, "a", 0, 0, [], 0)
  const IDLE := map["b" := false, "c" := false]
  const Q0 := Repl(map["b" := 1, "c" := 1], map[], IDLE, map[])
  const Q1 := Repl(map["b" := 2, "c" := 1], map["b" := 1], IDLE, map["b" := 0])
  const Q2 := Repl(map["b" := 2, "c" := 2], map["b" := 1, "c" := 1], IDLE, map["b" := 0, "c" := 0])
  const Q3 := Repl(map["b" := 3, "c" := 2], map["b" := 2, "c" := 1], IDLE, map["b" := 0, "c" := 0])
  const OLD_MAIL := {Append("b", OLD), Append("c", OLD)}

  /** "a" leading term 1. */
  function Boss(log: seq<Entry>, commit: int, repl: Repl): Site { Leads("a", PA, 1, log, commit, Some(repl)) }

  function Aide(id: NodeId, peers: seq<NodeId>, log: seq<Entry>, commit: int): Site {
    Follows(id, peers, 1, "a", Some("a"), log, commit, None)
  }

  /** Two empty requests go astray before the first proposal. */
  lemma RequestsAstray(m: Manner)
    ensures Reachable(m, Trio(Boss([E1], 0, Q0), Follows("b", PB, 1, "a", None, [], 0, None),
                           Follows("c", PC, 1, "a", None, [], 0, None), OLD_MAIL))
  {
    hide Reachable;
    FirstLeader(m);
    var b, c := Follows("b", PB, 1, "a", None, [], 0, None), Follows("c", PC, 1, "a", None, [], 0, None);
    var t := Trio(Leads("a", PA, 1, [], 0, None), b, c, {});
    assert FreshRepl(t.a.node).nextIndex == map["b" := 1, "c" := 1];
    assert CallOf(t.a, "b") == OLD;
    LosesCall(m, t, "a", "b");
    var t1 := Trio(Leads("a", PA, 1, [], 0, Some(R0)), b, c, {Append("b", OLD)});
    assert With(t, "a", t1.a, {Append("b", OLD)}) == t1;
    assert CallOf(t1.a, "c") == OLD;
    LosesCall(m, t1, "a", "c");
    assert R0.inFlight["c" := false] == IDLE;
    var t2 := Trio(Leads("a", PA, 1, [], 0, Some(Q0)), b, c, OLD_MAIL);
    assert With(t1, "a", t2.a, {Append("c", OLD)}) == t2;
    Submits(m, t2, "a", Clear);
    assert [] + [E1] == [E1];
    var grown := AppendOwn(t2.a.node, Clear);
    assert With(t2, "a", t2.a.(node := grown.(dirty := false), disk := ToDisk(grown)), {})
        == Trio(Boss([E1], 0, Q0), b, c, OLD_MAIL);
  }

  /** What one call does, on concrete machines. */
  lemma ShipsTo(t: Trio, p: NodeId, req: AppendRequest, a1: Site, w1: Site)
    requires (p == "b" || p == "c") && Reachable(Anyhow, t)
    requires t.a.node.role == Leader && t.a.node.base == 0 && !Flying(ReplOf(t.a), p)
    requires Pick(t, p).node.id == p && Pick(t, p).pending == {} && CallOf(t.a, p) == req
    requires Took(Pick(t, p), req) == w1 && Called(t.a, p, Answer(Pick(t, p), req)) == a1
    ensures Reachable(Anyhow, With(With(t, p, w1, {}), "a", a1, {}))
  {
    hide Took, Called, Answer, CallOf, Reachable, ReplOf, Flying;
    Ships(Anyhow, t, "a", p);
  }

  lemma Appends(w: Site, req: AppendRequest, log: seq<Entry>)
    requires w.node.base == 0 && w.node.role == Follower && w.node.term == req.term && !w.node.dirty
    requires w.disk == ToDisk(w.node)
    requires req.prevLogIndex == |w.node.log| && (req.prevLogIndex > 0 ==> LastTerm(w.node) == req.prevLogTerm)
    requires req.entries == [E1] && log == w.node.log + [E1]
    ensures var commit := if req.leaderCommit > w.node.commitIndex then Min(req.leaderCommit, |log|) else w.node.commitIndex;
            Took(w, req) == w.(node := w.node.(leaderId := Some(req.leader), log := log, commitIndex := commit),
                               disk := w.disk.(log := log))
    ensures Answer(w, req) == AppendResponse(req.term, true)
  {
    var l := w.node.log;
    assert CutStale(l, 0, |l| + 1) == l && [E1][0..] == [E1];
    assert Merge(l, 0, |l|, [E1]) == log;
  }

  /** A successful call that leaves marks x >= y >= z commits up to y. */
  lemma Acks(s: Site, p: NodeId, req: AppendRequest, r1: Repl, x: int, y: int, z: int)
    requires s.repl.Some? && s == Boss(s.node.log, s.node.commitIndex, s.repl.value) && s.node.log != []
    requires p == "b" || p == "c"
    requires CallOf(s, p) == req
    requires Acknowledge(Land(Launch(s.repl.value, p), p), p, req.prevLogIndex + |req.entries|) == r1
    requires x == |s.node.log| && (forall i | 0 <= i < |s.node.log| :: s.node.log[i].term == 1)
    requires At(r1.matchIndex, "b") == y && At(r1.matchIndex, "c") == z && x >= y >= z && y >= 1
    ensures Called(s, p, AppendResponse(1, true)) == Boss(s.node.log, Max(s.node.commitIndex, y), r1)
  {
    TwoMarks(r1.matchIndex, y, z);
    assert Matches(s.node, r1) == [x, y, z];
    SortedMarks(x, y, z);
    assert s.calls[p := req] - {p} == map[];
  }

  /** The request a leader of term 1 builds for a peer whose next index is `next`. */
  lemma CallIs(s: Site, p: NodeId, next: int)
    requires s.repl.Some? && s == Boss(s.node.log, s.node.commitIndex, s.repl.value)
    requires At(s.repl.value.nextIndex, p) == next && 1 <= next <= |s.node.log| + 1
    requires forall i | 0 <= i < |s.node.log| :: s.node.log[i].term == 1
    ensures CallOf(s, p) == AppendRequest(1, "a", next - 1, if next == 1 then 0 else 1, s.node.log[next - 1..],
                                          s.node.commitIndex)
  {}

  lemma Books1()
    ensures Acknowledge(Land(Launch(Q0, "b"), "b"), "b", 1) == Q1
  {
    assert IDLE["b" := true]["b" := false] == IDLE;
  }

  lemma Books2()
    ensures Acknowledge(Land(Launch(Q1, "c"), "c"), "c", 1) == Q2
  {
    assert IDLE["c" := true]["c" := false] == IDLE;
    assert Q1.nextIndex["c" := 2] == Q2.nextIndex && Q1.matchIndex["c" := 1] == Q2.matchIndex;
    assert Q1.backoff["c" := 0] == Q2.backoff;
  }

  lemma Books3()
    ensures Acknowledge(Land(Launch(Q2, "b"), "b"), "b", 2) == Q3
  {
    assert IDLE["b" := true]["b" := false] == IDLE;
  }

  lemma Books4()
    ensures Acknowledge(Land(Launch(Q3, "b"), "b"), "b", 2) == Q3
  {
    assert IDLE["b" := true]["b" := false] == IDLE;
  }

  /** "b" takes the first entry, and "a" commits it. */
  lemma FirstCommit()
    ensures Reachable(Anyhow, Trio(Boss([E1], 1, Q1), Aide("b", PB, [E1], 0),
                                   Follows("c", PC, 1, "a", None, [], 0, None), OLD_MAIL))
  {
    hide Reachable, Took, Answer, Called, CallOf, Acknowledge, Land, Launch;
    RequestsAstray(Anyhow);
    var b, c := Follows("b", PB, 1, "a", None, [], 0, None), Follows("c", PC, 1, "a", None, [], 0, None);
    var t := Trio(Boss([E1], 0, Q0), b, c, OLD_MAIL);
    var req := AppendRequest(1, "a", 0, 0, [E1], 0);
    assert [E1][0..] == [E1] && [] + [E1] == [E1];
    CallIs(t.a, "b", 1);
    Appends(t.b, req, [E1]);
    Books1();
    Acks(t.a, "b", req, Q1, 1, 1, 0);
    ShipsTo(t, "b", req, Boss([E1], 1, Q1), Aide("b", PB, [E1], 0));
    assert With(With(t, "b", Aide("b", PB, [E1], 0), {}), "a", Boss([E1], 1, Q1), {})
        == Trio(Boss([E1], 1, Q1), Aide("b", PB, [E1], 0), c, OLD_MAIL);
  }

  /** "c" takes it too, and hears that it is committed. */
  lemma FirstCommitKnown()
    ensures Reachable(Anyhow, Trio(Boss([E1], 1, Q2), Aide("b", PB, [E1], 0), Aide("c", PC, [E1], 1), OLD_MAIL))
  {
    hide Reachable, Took, Answer, Called, CallOf, Acknowledge, Land, Launch;
    FirstCommit();
    var b, c := Aide("b", PB, [E1], 0), Follows("c", PC, 1, "a", None, [], 0, None);
    var t := Trio(Boss([E1], 1, Q1), b, c, OLD_MAIL);
    var req := AppendRequest(1, "a", 0, 0, [E1], 1);
    assert [E1][0..] == [E1] && [] + [E1] == [E1];
    CallIs(t.a, "c", 1);
    Appends(t.c, req, [E1]);
    Books2();
    Acks(t.a, "c", req, Q2, 1, 1, 1);
    ShipsTo(t, "c", req, Boss([E1], 1, Q2), Aide("c", PC, [E1], 1));
    assert With(With(t, "c", Aide("c", PC, [E1], 1), {}), "a", Boss([E1], 1, Q2), {})
        == Trio(Boss([E1], 1, Q2), b, Aide("c", PC, [E1], 1), OLD_MAIL);
  }

  /** A second entry is committed with the help of "b". */
  lemma SecondCommit()
    ensures Reachable(Anyhow, Trio(Boss([E1, E1], 2, Q3), Aide("b", PB, [E1, E1], 1), Aide("c", PC, [E1], 1), OLD_MAIL))
  {
    hide Reachable, Took, Answer, Called, CallOf, Acknowledge, Land, Launch;
    FirstCommitKnown();
    var b, c := Aide("b", PB, [E1], 0), Aide("c", PC, [E1], 1);
    var t := Trio(Boss([E1], 1, Q2), b, c, OLD_MAIL);
    Submits(Anyhow, t, "a", Clear);
    assert [E1] + [E1] == [E1, E1] && [E1, E1][1..] == [E1];
    var grown := AppendOwn(t.a.node, Clear);
    var t1 := Trio(Boss([E1, E1], 1, Q2), b, c, OLD_MAIL);
    assert With(t, "a", t.a.(node := grown.(dirty := false), disk := ToDisk(grown)), {}) == t1;
    var req := AppendRequest(1, "a", 1, 1, [E1], 1);
    CallIs(t1.a, "b", 2);
    Appends(t1.b, req, [E1, E1]);
    Books3();
    Acks(t1.a, "b", req, Q3, 2, 2, 1);
    ShipsTo(t1, "b", req, Boss([E1, E1], 2, Q3), Aide("b", PB, [E1, E1], 1));
    assert With(With(t1, "b", Aide("b", PB, [E1, E1], 1), {}), "a", Boss([E1, E1], 2, Q3), {})
        == Trio(Boss([E1, E1], 2, Q3), Aide("b", PB, [E1, E1], 1), c, OLD_MAIL);
  }

  lemma Beats(w: Site, req: AppendRequest)
    requires w == Aide("b", PB, [E1, E1], 1) && req == AppendRequest(1, "a", 2, 1, [], 2)
    ensures Took(w, req) == Aide("b", PB, [E1, E1], 2) && Answer(w, req) == AppendResponse(1, true)
  {
    assert Merge([E1, E1], 0, 2, []) == [E1, E1];
  }

  /** And "b" hears of it. */
  lemma SecondCommitKnown()
    ensures Reachable(Anyhow, Trio(Boss([E1, E1], 2, Q3), Aide("b", PB, [E1, E1], 2), Aide("c", PC, [E1], 1), OLD_MAIL))
  {
    hide Reachable, Took, Answer, Called, CallOf, Acknowledge, Land, Launch;
    SecondCommit();
    var t := Trio(Boss([E1, E1], 2, Q3), Aide("b", PB, [E1, E1], 1), Aide("c", PC, [E1], 1), OLD_MAIL);
    var req := AppendRequest(1, "a", 2, 1, [], 2);
    CallIs(t.a, "b", 3);
    Beats(t.b, req);
    Books4();
    Acks(t.a, "b", req, Q3, 2, 2, 1);
    ShipsTo(t, "b", req, t.a, Aide("b", PB, [E1, E1], 2));
    assert With(With(t, "b", Aide("b", PB, [E1, E1], 2), {}), "a", t.a, {})
        == Trio(t.a, Aide("b", PB, [E1, E1], 2), t.c, OLD_MAIL);
  }

  /** The empty requests of long ago arrive and cut both followers' logs. */
  lemma AstrayRequestsArrive()
    ensures Reachable(Anyhow, Trio(Boss([E1, E1], 2, Q3), Aide("b", PB, [], 2), Aide("c", PC, [], 1), OLD_MAIL))
  {
    hide Reachable, Took, Answer;
    SecondCommitKnown();
    var t := Trio(Boss([E1, E1], 2, Q3), Aide("b", PB, [E1, E1], 2), Aide("c", PC, [E1], 1), OLD_MAIL);
    CutsAll(t.b, OLD);
    Takes(Anyhow, t, "b", OLD);
    var t1 := Trio(t.a, Aide("b", PB, [], 2), t.c, OLD_MAIL);
    LessMail(Anyhow, With(t, "b", t1.b, {AppendReply("b", OLD, Answer(t.b, OLD))}), t1);
    CutsAll(t1.c, OLD);
    Takes(Anyhow, t1, "c", OLD);
    LessMail(Anyhow, With(t1, "c", Aide("c", PC, [], 1), {AppendReply("c", OLD, Answer(t1.c, OLD))}),
             Trio(t.a, t1.b, Aide("c", PC, [], 1), OLD_MAIL));
  }

  /** A commit index left beyond the log: in a clean and smooth run, a late copy
      of an earlier request takes every committed entry from both followers,
      whose commit indexes stay where they were. */
  lemma CommitIndexLeftBeyondLog() returns (steps: seq<Step>)
    ensures Initial(Start()) && IsCleanRun(Start(), steps) && SmoothRun(steps) && IsRun(Start(), steps)
    ensures var r := After(Start(), steps).sites;
            && r.Keys == {"a", "b", "c"}
            && r["a"].node.role == Leader && r["a"].node.commitIndex == 2
            && r["b"].node.log == r["b"].disk.log == [] && r["b"].node.commitIndex == 2
            && r["c"].node.log == r["c"].disk.log == [] && r["c"].node.commitIndex == 1
  {
    hide Reachable, Initial, IsRun, IsCleanRun, After;
    StartIsInitial();
    AstrayRequestsArrive();
    steps := RunTo(Anyhow, Trio(Boss([E1, E1], 2, Q3), Aide("b", PB, [], 2), Aide("c", PC, [], 1), OLD_MAIL));
  }

  const EMPTY_HANDED := AppendRequest(2, "b", 0, 0, [], 2)

  /** "b" then leads term 2 without the committed entries, and its heartbeat, with
      commit index 2, is under way to "c". */
  lemma EmptyHandedBeat()
    ensures exists repl: Repl, calls: map<NodeId, AppendRequest> ::
              Reachable(Anyhow, Trio(Boss([E1, E1], 2, Q3), Leads("b", PB, 2, [], 2, Some(repl)).(calls := calls),
                             Follows("c", PC, 2, "b", None, [], 1, None), {Append("c", EMPTY_HANDED)}))
  {
    hide Reachable;
    AstrayRequestsArrive();
    var t := Trio(Boss([E1, E1], 2, Q3), Aide("b", PB, [], 2), Aide("c", PC, [], 1), OLD_MAIL);
    Elect(Anyhow, t, "b", "c");
    var t1 := Trio(t.a, Leads("b", PB, 2, [], 2, None), Follows("c", PC, 2, "b", None, [], 1, None), {});
    assert Crowned(t.b) == t1.b && Voted(t.c, Ask(t.b)) == t1.c;
    LessMail(Anyhow, With(With(t, "c", t1.c, {Solicit(Ask(t.b)), Ballot("c", Ask(t.b))}), "b", t1.b, {}), t1);
    Calls(Anyhow, t1, "b", "c");
    assert CallOf(t1.b, "c") == EMPTY_HANDED;
    var b := DoReplicate(t1.b, "c").0;
    assert b == Leads("b", PB, 2, [], 2, Some(b.repl.value)).(calls := b.calls);
    LessMail(Anyhow, With(t1, "b", b, {Append("c", EMPTY_HANDED)}), Trio(t.a, b, t1.c, {Append("c", EMPTY_HANDED)}));
  }

  lemma BeatLowers(w: Site)
    requires w == Follows("c", PC, 2, "b", None, [], 1, None)
    ensures DoReceiveAppend(w, EMPTY_HANDED).0.node.commitIndex == 0
  {
    assert Merge([], 0, 0, []) == [];
  }

  /** A commit index that falls: the run goes on to a leader of term 2 without
      the entries committed in term 1, and its heartbeat takes the commit index
      of "c" from 1 to 0. */
  lemma CommitIndexFalls() returns (steps: seq<Step>, step: Step)
    ensures Initial(Start()) && IsCleanRun(Start(), steps + [step]) && SmoothRun(steps + [step])
    ensures IsRun(Start(), steps) && IsRun(Start(), steps + [step])
    ensures var r, r1 := After(Start(), steps).sites, After(Start(), steps + [step]).sites;
            && r.Keys == {"a", "b", "c"} && "c" in r1
            && r["a"].node.commitIndex == 2
            && r["b"].node.role == Leader && r["b"].node.term == 2 > r["a"].node.term && r["b"].node.log == []
            && r["c"].node.commitIndex == 1 && r1["c"].node.commitIndex == 0
  {
    hide Reachable, Initial, IsRun, IsCleanRun, After, DoReceiveAppend;
    StartIsInitial();
    EmptyHandedBeat();
    var repl: Repl, calls: map<NodeId, AppendRequest> :|
      Reachable(Anyhow, Trio(Boss([E1, E1], 2, Q3), Leads("b", PB, 2, [], 2, Some(repl)).(calls := calls),
                     Follows("c", PC, 2, "b", None, [], 1, None), {Append("c", EMPTY_HANDED)}));
    var t := Trio(Boss([E1, E1], 2, Q3), Leads("b", PB, 2, [], 2, Some(repl)).(calls := calls),
                  Follows("c", PC, 2, "b", None, [], 1, None), {Append("c", EMPTY_HANDED)});
    steps := RunTo(Anyhow, t);
    step := ReceiveAppend("c", EMPTY_HANDED);
    OneMore(Anyhow, steps, t, step);
    BeatLowers(t.c);
  }
}
