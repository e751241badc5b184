/**
 Storing nothing is not agreement. A master that followed another one for a
 moment comes back under a new uuid; a slave that did not look meanwhile keeps
 the former one, and the master does not count it.
 */
module StaleUuid {
  import opened Stores
  import opened NodeStatus
  import opened ClusterInfo
  import opened ClusterAgreement
  import opened BatonRuns

  const INFO := Info("", false)

  /** What a is at first, and what it is after it followed c. */
  const FIRST := Status("a", 1, 0, 5, false)
  const RENEWED := Status("a", 2, 0, 5, false)
  const OWN := Status("b", 9, 0, 6, false)
  const OTHER := Status("c", 3, 1, 1, false)

  /** Node a as it sees b and c, and once c is no longer configured. */
  function NodeA(b: Option<Status>, c: Option<Status>, s: Status): Node {
    Node("a", INFO, map["b" := Peer(INFO, b), "c" := Peer(INFO, c)], s, None)
  }

  function LastA(): Node {
    Node("a", INFO, map["b" := Peer(INFO, Some(FIRST))], RENEWED, None)
  }

  function NodeB(a: Option<Status>, s: Status): Node {
    Node("b", INFO, map["a" := Peer(INFO, a)], s, None)
  }

  function TraceA(): seq<Node> {
    [NodeA(None, None, FIRST), NodeA(Some(OWN), None, FIRST), NodeA(Some(FIRST), None, FIRST),
     NodeA(Some(FIRST), Some(OTHER), FIRST), NodeA(Some(FIRST), Some(OTHER), OTHER),
     NodeA(Some(FIRST), None, OTHER), NodeA(Some(FIRST), None, RENEWED), LastA()]
  }

  function EventsA(): seq<Event> {
    [Registers("b", OWN), Reports("b", FIRST), Registers("c", OTHER), Recalculates(7, 9), Lost("c"),
     Recalculates(2, 5), Reconfigures(map["a" := INFO, "b" := INFO], 7, 9)]
  }

  function TraceB(): seq<Node> {
    [NodeB(None, OWN), NodeB(Some(FIRST), OWN), NodeB(Some(FIRST), FIRST),
     NodeB(Some(OTHER), FIRST), NodeB(Some(RENEWED), FIRST), NodeB(Some(RENEWED), FIRST)]
  }

  function EventsB(): seq<Event> {
    [Registers("a", FIRST), Recalculates(7, 9), Reports("a", OTHER), Reports("a", RENEWED), Recalculates(8, 9)]
  }

  /** A node before it has heard of anyone, as it starts. */
  predicate Starts(n: Node) {
    n.baton.None? && n.status == Annointed(n.name, n.status.uuid, n.status.timestamp)
    && forall p :: p in n.cluster ==> n.cluster[p].link.None?
  }

  /** Whatever p is seen to report is a status it has at some time. */
  ghost predicate ReportsTruly(es: seq<Event>, p: Name, trace: seq<Node>) {
    forall i, s :: 0 <= i < |es| && (es[i] == Reports(p, s) || es[i] == Registers(p, s)) ==>
      exists j :: 0 <= j < |trace| && trace[j].status == s
  }

  /** While a is counted by b, the older c has as many slaves, and a follows it. */
  lemma FollowsOther()
    ensures Recalculated(NodeA(Some(FIRST), Some(OTHER), FIRST), 7, 9, NodeA(Some(FIRST), Some(OTHER), OTHER))
  {
    var n := NodeA(Some(FIRST), Some(OTHER), FIRST);
    assert Slaves(n.cluster, FIRST) == {"b"};
    assert SelfMaster(n.cluster, "c") && Report(n.cluster, "c") == OTHER;
    CompareTies(OTHER, OTHER);
    assert Base(n, FIRST, 7, 9) == FIRST.(slavecount := 1);
    assert Outcome(n, 7, 9, OTHER);
  }

  /** When c is lost, a is its own master again, under a new uuid. */
  lemma ComesBack()
    ensures Recalculated(NodeA(Some(FIRST), None, OTHER), 2, 5, NodeA(Some(FIRST), None, RENEWED))
  {
    var n := NodeA(Some(FIRST), None, OTHER);
    assert Slaves(n.cluster, Annointed("a", 2, 5)) == {};
    CompareTies(RENEWED, RENEWED);
    assert Base(n, OTHER, 2, 5) == RENEWED;
    assert Outcome(n, 2, 5, RENEWED);
  }

  /** b still carries the former uuid, and is not counted. */
  lemma DoesNotCount()
    ensures Outcome(LastA(), 7, 9, RENEWED) && Recalculated(LastA(), 7, 9, LastA())
  {
    var n := LastA();
    assert Slaves(n.cluster, RENEWED) == {};
    CompareTies(RENEWED, RENEWED);
    assert Base(n, RENEWED, 7, 9) == RENEWED;
    assert Outcome(n, 7, 9, RENEWED);
  }

  lemma JoinsFirst()
    ensures Recalculated(NodeB(Some(FIRST), OWN), 7, 9, NodeB(Some(FIRST), FIRST))
  {
    var n := NodeB(Some(FIRST), OWN);
    assert Slaves(n.cluster, OWN) == {};
    assert SelfMaster(n.cluster, "a") && Report(n.cluster, "a") == FIRST;
    CompareTies(FIRST, FIRST);
    assert Base(n, OWN, 7, 9) == OWN;
    assert Outcome(n, 7, 9, FIRST);
  }

  /** The renewed status compares equal to the former one, which b therefore keeps. */
  lemma KeepsFormer()
    ensures var n := NodeB(Some(RENEWED), FIRST); Outcome(n, 8, 9, RENEWED) && Recalculated(n, 8, 9, n)
  {
    var n := NodeB(Some(RENEWED), FIRST);
    assert Slaves(n.cluster, Annointed("b", 8, 9)) == {};
    assert SelfMaster(n.cluster, "a") && Report(n.cluster, "a") == RENEWED;
    CompareTies(RENEWED, RENEWED);
    CompareTies(FIRST, RENEWED);
    assert Base(n, FIRST, 8, 9) == Annointed("b", 8, 9);
    assert Outcome(n, 8, 9, RENEWED);
  }

  /** What a sees of its peers. */
  lemma SeesPeers(i: nat)
    requires i == 0 || i == 1 || i == 2 || i == 4
    ensures Step(TraceA()[i], EventsA()[i], TraceA()[i + 1])
  {
    var t := TraceA();
    if i == 0 {
      assert t[0].cluster["b" := Peer(INFO, Some(OWN))] == t[1].cluster;
    } else if i == 1 {
      assert t[1].cluster["b" := Peer(INFO, Some(FIRST))] == t[2].cluster;
    } else if i == 2 {
      assert t[2].cluster["c" := Peer(INFO, Some(OTHER))] == t[3].cluster;
    } else {
      assert t[4].cluster["c" := Peer(INFO, None)] == t[5].cluster;
    }
  }

  /** What a makes of it. */
  lemma LooksAgain(i: nat)
    requires i == 3 || i == 5 || i == 6
    ensures Step(TraceA()[i], EventsA()[i], TraceA()[i + 1])
  {
    FollowsOther();
    ComesBack();
    DoesNotCount();
    hide Recalculated;
    assert Configured("a", TraceA()[6].cluster, EventsA()[6].newcluster) == LastA().cluster;
  }

  lemma RunOfA()
    ensures Run(TraceA(), EventsA())
  {
    hide Step;
    forall i | 0 <= i < |EventsA()|
      ensures Step(TraceA()[i], EventsA()[i], TraceA()[i + 1])
    {
      if i == 3 || i == 5 || i == 6 {
        LooksAgain(i);
      } else {
        SeesPeers(i);
      }
    }
  }

  lemma RunOfB()
    ensures Run(TraceB(), EventsB())
  {
    JoinsFirst();
    KeepsFormer();
    var t, es := TraceB(), EventsB();
    hide Recalculated;
    forall i | 0 <= i < |es|
      ensures Step(t[i], es[i], t[i + 1])
    {
      if i == 0 {
        assert t[0].cluster["a" := Peer(INFO, Some(FIRST))] == t[1].cluster;
      } else if i == 2 {
        assert t[2].cluster["a" := Peer(INFO, Some(OTHER))] == t[3].cluster;
      } else if i == 3 {
        assert t[3].cluster["a" := Peer(INFO, Some(RENEWED))] == t[4].cluster;
      }
    }
  }

  lemma Truly()
    ensures ReportsTruly(EventsA(), "b", TraceB()) && ReportsTruly(EventsB(), "a", TraceA())
  {
    assert TraceB()[0].status == OWN && TraceB()[2].status == FIRST;
    assert TraceA()[0].status == FIRST && TraceA()[4].status == OTHER && TraceA()[6].status == RENEWED;
  }

  /**
   From their start two nodes come, by runs that report nothing the other was
   not, to a fully connected cluster where recalculation stores nothing and yet
   the slave has its master's former uuid and is not counted.
   */
  lemma StaleUuidIsStable() returns (nodes: Nodes)
    ensures FullyConnected(nodes) && nodes.Keys == {"a", "b"}
    ensures forall i :: i in nodes ==> Stable(nodes[i])
    ensures nodes["a"].status.master == nodes["b"].status.master == "a"
    ensures nodes["b"].status != nodes["a"].status && nodes["a"].status.slavecount == 0
    ensures Run(TraceA(), EventsA()) && Starts(TraceA()[0]) && TraceA()[|EventsA()|] == nodes["a"]
    ensures Run(TraceB(), EventsB()) && Starts(TraceB()[0]) && TraceB()[|EventsB()|] == nodes["b"]
    ensures ReportsTruly(EventsA(), "b", TraceB()) && ReportsTruly(EventsB(), "a", TraceA())
  {
    nodes := map["a" := LastA(), "b" := NodeB(Some(RENEWED), FIRST)];
    hide Outcome, Run, ReportsTruly;
    RunOfA();
    RunOfB();
    Truly();
    DoesNotCount();
    KeepsFormer();
    CompareTies(RENEWED, RENEWED);
    CompareTies(FIRST, RENEWED);
  }
}
