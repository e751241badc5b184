/** What a fully connected cluster has agreed on once recalculation changes nothing anywhere. */
module ClusterAgreement {
  import opened Sets
  import opened Stores
  import opened NodeStatus
  import opened ClusterInfo

  type Nodes = map<Name, Node>

  /** Every node is connected with every other, knows its current status, and holds no baton. */
  ghost predicate FullyConnected(nodes: Nodes) {
    forall i :: i in nodes ==>
      && nodes[i].name == i && nodes[i].baton.None?
      && nodes[i].cluster.Keys == nodes.Keys - {i}
      && forall j :: j in nodes && j != i ==> nodes[i].cluster[j].link == Some(nodes[j].status)
  }

  /** Recalculating would store nothing. */
  ghost predicate Stable(n: Node) {
    exists uuid, now, r :: Outcome(n, uuid, now, r) && Compare(n.status, r) == 0
  }

  /** Recalculating would give the very status the node has, the uuid included. */
  ghost predicate FullyStable(n: Node) {
    exists uuid, now :: Outcome(n, uuid, now, n.status)
  }

  /** The nodes other than m that carry m's uuid. */
  function Followers(nodes: Nodes, m: Name): set<Name>
    requires m in nodes
  {
    set j | j in nodes && j != m && nodes[j].status.uuid == nodes[m].status.uuid
  }

  predicate IsSelfMaster(nodes: Nodes, i: Name) {
    i in nodes && nodes[i].status.master == i
  }

  /** A stable status is a self-master's, at least up to the uuid; a self-master's beats every other self-master's. */
  lemma StableStatus(nodes: Nodes, i: Name) returns (m: Name)
    requires FullyConnected(nodes) && i in nodes && Stable(nodes[i])
    ensures IsSelfMaster(nodes, m) && m == nodes[i].status.master
    ensures Compare(nodes[i].status, nodes[m].status) == 0
    ensures FullyStable(nodes[i]) ==> nodes[i].status == nodes[m].status
    ensures m == i ==> nodes[i].status.slavecount == |Slaves(nodes[i].cluster, nodes[i].status)|
    ensures forall j :: IsSelfMaster(nodes, j) ==> Compare(nodes[j].status, nodes[i].status) <= 0
  {
    var n := nodes[i];
    var uuid, now, r :| Outcome(n, uuid, now, r) && Compare(n.status, r) == 0;
    OutcomeShape(n, uuid, now, r);
    BestShape(n, uuid, now, r);
    CompareTies(n.status, r);
    m := r.master;
    CompareTies(n.status, n.status);
    assert r.master == i ==> r == n.status;
    if m != i {
      assert SelfMaster(n.cluster, m) && Report(n.cluster, m) == nodes[m].status;
      if FullyStable(n) {
        var u, t :| Outcome(n, u, t, n.status);
        OutcomeShape(n, u, t, n.status);
      }
    }
    forall j | IsSelfMaster(nodes, j)
      ensures Compare(nodes[j].status, n.status) <= 0
    {
      if j != i {
        assert SelfMaster(n.cluster, j) && Report(n.cluster, j) == nodes[j].status;
        CompareTotal(n.status, r);
        CompareTransitive(nodes[j].status, r, n.status);
      }
    }
  }

  /**
   There is exactly one self-master, every other node's status equals its up
   to the uuid, and it counts exactly the nodes that carry its uuid too.
   */
  lemma OneMaster(nodes: Nodes) returns (m: Name)
    requires FullyConnected(nodes) && nodes != map[]
    requires forall i :: i in nodes ==> Stable(nodes[i])
    ensures IsSelfMaster(nodes, m) && forall i :: IsSelfMaster(nodes, i) ==> i == m
    ensures forall i :: i in nodes ==> nodes[i].status.(uuid := nodes[m].status.uuid) == nodes[m].status
    ensures nodes[m].status.slavecount == |Followers(nodes, m)|
  {
    assert nodes.Keys != {};
    var any :| any in nodes;
    m := StableStatus(nodes, any);
    var mm := StableStatus(nodes, m);
    forall i | i in nodes
      ensures nodes[i].status.master == m
      ensures Compare(nodes[i].status, nodes[m].status) == 0
    {
      var c := StableStatus(nodes, i);
      var cc := StableStatus(nodes, c);
      CompareTotal(nodes[c].status, nodes[m].status);
      CompareTies(nodes[c].status, nodes[m].status);
      assert c == m;
    }
    forall i | i in nodes
      ensures nodes[i].status.(uuid := nodes[m].status.uuid) == nodes[m].status
    {
      CompareTies(nodes[m].status, nodes[i].status);
      CompareTotal(nodes[m].status, nodes[i].status);
    }
    CountsFollowers(nodes, m);
  }

  lemma CountsFollowers(nodes: Nodes, m: Name)
    requires FullyConnected(nodes) && m in nodes
    requires forall i :: i in nodes ==> nodes[i].status.master == nodes[m].status.master
    ensures Slaves(nodes[m].cluster, nodes[m].status) == Followers(nodes, m)
  {
    forall p
      ensures p in Slaves(nodes[m].cluster, nodes[m].status) <==> p in Followers(nodes, m)
    {
      assert p in nodes[m].cluster <==> p in nodes && p != m;
    }
  }

  /** The master counts every other node exactly when all of them carry its uuid. */
  lemma CountsAllIffOneUuid(nodes: Nodes, m: Name)
    requires FullyConnected(nodes) && IsSelfMaster(nodes, m)
    requires forall i :: i in nodes ==> Stable(nodes[i])
    ensures nodes[m].status.slavecount == |nodes| - 1
      <==> forall i :: i in nodes ==> nodes[i].status == nodes[m].status
  {
    var m2 := OneMaster(nodes);
    assert m2 == m;
    FollowersAreAll(nodes, m);
    hide FullyConnected, Stable;
    if Followers(nodes, m) == nodes.Keys - {m} {
      forall i | i in nodes
        ensures nodes[i].status == nodes[m].status
      {
        assert i == m || i in Followers(nodes, m);
      }
    }
  }

  lemma FollowersAreAll(nodes: Nodes, m: Name)
    requires m in nodes
    ensures |Followers(nodes, m)| == |nodes| - 1 <==> Followers(nodes, m) == nodes.Keys - {m}
    ensures (forall i :: i in nodes ==> nodes[i].status == nodes[m].status) ==> Followers(nodes, m) == nodes.Keys - {m}
  {
    var others := nodes.Keys - {m};
    assert nodes.Keys == others + {m} && Followers(nodes, m) <= others;
    assert |others| == |nodes| - 1;
    if |Followers(nodes, m)| == |others| {
      SameSize(Followers(nodes, m), others);
    }
  }

  /**
   When recalculation would leave every full status unchanged there is exactly
   one self-master, everyone carries its exact record, and it counts all others.
   */
  lemma FullAgreement(nodes: Nodes) returns (m: Name)
    requires FullyConnected(nodes) && nodes != map[]
    requires forall i :: i in nodes ==> FullyStable(nodes[i])
    ensures IsSelfMaster(nodes, m) && forall i :: IsSelfMaster(nodes, i) ==> i == m
    ensures forall i :: i in nodes ==> nodes[i].status == nodes[m].status
    ensures nodes[m].status.slavecount == |nodes| - 1
  {
    forall i | i in nodes
      ensures Stable(nodes[i])
    {
      var uuid, now :| Outcome(nodes[i], uuid, now, nodes[i].status);
      CompareTies(nodes[i].status, nodes[i].status);
    }
    m := OneMaster(nodes);
    forall i | i in nodes
      ensures nodes[i].status == nodes[m].status
    {
      var c := StableStatus(nodes, i);
    }
    CountsAllIffOneUuid(nodes, m);
  }
}
