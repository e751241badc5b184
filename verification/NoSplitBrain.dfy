/**
 When two masters can both have a majority. Each node is linked to at most one
 master, a node that is a master to none, and every master runs the controller
 of MasterController. The two ends of a link go separately: a slave may leave,
 and join elsewhere, while its former master still counts it.
 */
module NoSplitBrain {
  import opened Sets
  import opened Stores
  import opened MasterController
  import opened MasterRuns

  /** The nodes of one configuration, the master each slave is linked to, and each master's controller. */
  datatype Net = Net(nodes: set<Name>, link: map<Name, Name>, masters: map<Name, Master>)

  datatype Change =
    | Promote(m: Name, held: bool)
    | Demote(m: Name)
    | Joins(s: Name, m: Name, record: nat, uuid: Uuid)
    | Leaves(s: Name)
    | At(m: Name, e: Event)

  /** What a controller does without a slave joining, the configuration being that of the cluster. */
  predicate Internal(nodes: set<Name>, m: Name, e: Event) {
    !e.PeerNewMaster? && (e.ClusterUpdated? ==> e.names == nodes - {m})
  }

  predicate CanHappen(n: Net, c: Change) {
    match c
    case Promote(m, _) => m in n.nodes && m !in n.masters && m !in n.link
    case Demote(m) => m in n.masters
    case Joins(s, m, _, _) => s in n.nodes && s !in n.link && s !in n.masters && m in n.masters && m != s
    case Leaves(s) => s in n.link
    case At(m, e) => m in n.masters && Internal(n.nodes, m, e)
  }

  function Changed(n: Net, c: Change): Net
    requires CanHappen(n, c)
  {
    match c
    case Promote(m, held) => n.(masters := n.masters[m := Start(held)])
    case Demote(m) => n.(masters := n.masters - {m})
    case Joins(s, m, record, uuid) =>
      n.(link := n.link[s := m], masters := n.masters[m := Apply(n.masters[m], PeerNewMaster(s, record, uuid))])
    case Leaves(s) => n.(link := n.link - {s})
    case At(m, e) => n.(masters := n.masters[m := Apply(n.masters[m], e)])
  }

  ghost predicate Happens(n: Net, cs: seq<Change>, n2: Net)
    decreases |cs|
  {
    if cs == [] then n2 == n else CanHappen(n, cs[0]) && Happens(Changed(n, cs[0]), cs[1..], n2)
  }

  /** A node that is a master no longer can join any other master. */
  lemma DemotedCanJoin(n: Net, m: Name, other: Name, record: nat, uuid: Uuid)
    requires LinksOk(n) && m in n.nodes && m in n.masters && other in n.masters && other != m
    ensures var n1 := Changed(n, Demote(m));
      && n1.masters == n.masters - {m} && CanHappen(n1, Joins(m, other, record, uuid))
      && Changed(n1, Joins(m, other, record, uuid)).link == n.link[m := other]
  {
  }

  // ------------------------------------------------------------ what a controller's table says

  predicate IsLive(s: Slave) {
    s.conn.Conn? && !Lost(s)
  }

  function Live(slaves: Slaves): set<Name> {
    set s | s in slaves && IsLive(slaves[s])
  }

  /** The table of a master m: all other nodes, once it was told of them. */
  predicate MasterOk(nodes: set<Name>, m: Name, t: Master) {
    && m in nodes
    && (if t.haveCluster then t.slaves.Keys == nodes - {m} else t.slaves == map[] && !t.quorum.majority)
  }

  predicate LinksOk(n: Net) {
    forall s :: s in n.link ==> s in n.nodes && s !in n.masters
  }

  ghost predicate Sound(n: Net) {
    && (forall m :: m in n.masters ==> MasterOk(n.nodes, m, n.masters[m]))
    && LinksOk(n)
  }

  lemma CleanedLive(slaves: Slaves)
    ensures Live(Cleaned(slaves)) == Live(slaves) && Cleaned(slaves).Keys == slaves.Keys
  {
  }

  lemma ComputedTable(m: Master, force: bool)
    ensures Computed(m, force).slaves == Cleaned(m.slaves) && Computed(m, force).haveCluster == m.haveCluster
    ensures Live(Computed(m, force).slaves) == Live(m.slaves) && Computed(m, force).slaves.Keys == m.slaves.Keys
  {
    CleanedLive(m.slaves);
  }

  lemma ComputedIfKnownTable(m: Master)
    ensures var m2 := ComputedIfKnown(m, false);
      && m2.haveCluster == m.haveCluster && m2.slaves.Keys == m.slaves.Keys && Live(m2.slaves) == Live(m.slaves)
      && (!m.haveCluster ==> m2 == m)
  {
    ComputedTable(m, false);
  }

  lemma CheckedTable(m: Master, uuids: set<Uuid>)
    ensures var m2 := Checked(m, uuids);
      m2.haveCluster == m.haveCluster && m2.slaves.Keys == m.slaves.Keys && Live(m2.slaves) == Live(m.slaves)
  {
    ComputedTable(m, false);
    hide Computed;
    SubmittedFields(Computed(m, false), Peers(m.slaves), uuids);
    hide Submitted;
  }

  lemma ReceivedTable(m: Master, node: Node, uuids: Receipts)
    ensures var m2 := ReceivedBy(m, node, uuids);
      && m2.haveCluster == m.haveCluster && m2.slaves.Keys == m.slaves.Keys
      && Live(m2.slaves) == Live(m.slaves) && m2.quorum == m.quorum
  {
  }

  lemma CompletedTable(slaves: Slaves, locked: set<Name>)
    ensures CompletedAll(slaves, locked).Keys == slaves.Keys && Live(CompletedAll(slaves, locked)) == Live(slaves)
  {
  }

  lemma ReconfiguredTable(slaves: Slaves, names: set<Name>)
    ensures Reconfigured(slaves, names).Keys == names && Live(Reconfigured(slaves, names)) <= Live(slaves)
  {
  }

  /** Nothing a controller does by itself makes a slave live. */
  lemma InternalKeepsTable(nodes: set<Name>, m: Name, t: Master, e: Event)
    requires MasterOk(nodes, m, t) && Internal(nodes, m, e)
    ensures MasterOk(nodes, m, Apply(t, e)) && Live(Apply(t, e).slaves) <= Live(t.slaves)
  {
    hide Computed, Checked, ReceivedBy, CompletedAll, Reconfigured, ComputedIfKnown, Completes;
    match e
    case ClusterUpdated(names) =>
      var t1 := t.(slaves := Reconfigured(t.slaves, names), haveCluster := true);
      ReconfiguredTable(t.slaves, names);
      ComputedTable(t1, !t.haveCluster);
    case CheckCopyCompleted(locked) =>
      CompletedTable(t.slaves, locked);
      assert !t.haveCluster ==> CompletedAll(t.slaves, locked) == map[];
      ComputedIfKnownTable(t.(slaves := CompletedAll(t.slaves, locked)));
    case Received(node, uuids) =>
      ReceivedTable(t, node, uuids);
      CheckedTable(ReceivedBy(t, node, uuids), uuids.Keys);
      assert !t.haveCluster ==> ReceivedBy(t, node, uuids).slaves == map[];
    case CheckQuorum => ComputedIfKnownTable(t);
    case HandoffFailed => ComputedIfKnownTable(t.(commits := true));
    case _ => OneEntryTable(t, e);
  }

  lemma OneEntryTable(t: Master, e: Event)
    requires OneEntry(e)
    ensures var t2 := Apply(t, e);
      && t2.slaves.Keys == t.slaves.Keys && Live(t2.slaves) <= Live(t.slaves)
      && t2.haveCluster == t.haveCluster && t2.quorum == t.quorum && (t.slaves == map[] ==> t2.slaves == map[])
  {
    OneEntryChanges(t, e);
    NotRevived(t, e);
    hide Apply, OneEntry, About, Fewer;
  }

  /** An entry that was not live does not become live. */
  lemma NotRevived(t: Master, e: Event)
    requires OneEntry(e)
    ensures var t2 := Apply(t, e);
      && (forall s :: s in t.slaves && s in t2.slaves && IsLive(t2.slaves[s]) ==> IsLive(t.slaves[s]))
      && t2.haveCluster == t.haveCluster && t2.quorum == t.quorum
  {
    hide Receive;
  }

  lemma JoinKeepsTable(nodes: set<Name>, m: Name, t: Master, s: Name, record: nat, uuid: Uuid)
    requires MasterOk(nodes, m, t)
    ensures var t2 := Apply(t, PeerNewMaster(s, record, uuid));
      MasterOk(nodes, m, t2) && Live(t2.slaves) <= Live(t.slaves) + {s}
  {
    if s in t.slaves {
      var t0 := t.(slaves := t.slaves[s := NEWSLAVE]);
      EntryAdded(t.slaves, s, NEWSLAVE);
      ComputedIfKnownTable(t0);
      hide ComputedIfKnown, Live;
      EntryAdded(ComputedIfKnown(t0, false).slaves, s, Joined(record, uuid));
    }
  }

  lemma EntryAdded(slaves: Slaves, s: Name, e: Slave)
    requires s in slaves
    ensures Live(slaves[s := e]) <= Live(slaves) + {s} && slaves[s := e].Keys == slaves.Keys
  {
  }

  lemma ChangeKeepsSound(n: Net, c: Change)
    requires Sound(n) && CanHappen(n, c)
    ensures Sound(Changed(n, c)) && Changed(n, c).nodes == n.nodes
  {
    hide Apply, MasterOk, Internal;
    forall m | m in Changed(n, c).masters
      ensures MasterOk(n.nodes, m, Changed(n, c).masters[m])
    {
      assert m in n.masters ==> MasterOk(n.nodes, m, n.masters[m]);
      match c
      case Promote(p, held) => NewMaster(n.nodes, p, held);
      case Joins(s, j, record, uuid) => JoinKeepsTable(n.nodes, j, n.masters[j], s, record, uuid);
      case At(j, e) => InternalKeepsTable(n.nodes, j, n.masters[j], e);
      case _ =>
    }
  }

  lemma NewMaster(nodes: set<Name>, m: Name, held: bool)
    requires m in nodes
    ensures MasterOk(nodes, m, Start(held)) && Live(Start(held).slaves) == {}
  {
  }

  lemma {:induction false} HappensKeepsSound(n: Net, cs: seq<Change>, n2: Net)
    requires Sound(n) && Happens(n, cs, n2)
    ensures Sound(n2) && n2.nodes == n.nodes
    decreases |cs|
  {
    hide Sound, Changed, CanHappen;
    if cs != [] {
      ChangeKeepsSound(n, cs[0]);
      HappensKeepsSound(Changed(n, cs[0]), cs[1..], n2);
    }
  }

  ghost predicate Reached(nodes: set<Name>, cs: seq<Change>, n: Net) {
    Happens(Net(nodes, map[], map[]), cs, n)
  }

  lemma ReachedSound(nodes: set<Name>, cs: seq<Change>, n: Net)
    requires Reached(nodes, cs, n)
    ensures Sound(n) && n.nodes == nodes
  {
    HappensKeepsSound(Net(nodes, map[], map[]), cs, n);
  }

  // ------------------------------------------------------------ two majorities need slaves that left unnoticed

  function LinkedTo(n: Net, m: Name): set<Name> {
    set s | s in n.link && n.link[s] == m
  }

  /** The slaves a master counts that are not linked to it any more. */
  function Stale(n: Net, m: Name): set<Name>
    requires m in n.masters
  {
    Peers(n.masters[m].slaves) - LinkedTo(n, m)
  }

  /** Has been told of the cluster, and counts a majority of it. */
  predicate HasMajority(n: Net, m: Name) {
    m in n.masters && n.masters[m].haveCluster && QuorumOf(n.masters[m].slaves).majority
  }

  lemma MajorityNeeds(n: Net, m: Name)
    requires Sound(n) && HasMajority(n, m)
    ensures |Peers(n.masters[m].slaves)| >= |n.nodes| / 2
  {
    var t := n.masters[m].slaves;
    assert MasterOk(n.nodes, m, n.masters[m]);
    assert n.nodes == t.Keys + {m};
    assert |n.nodes| == |t.Keys| + 1 && |t.Keys| == |t|;
  }

  /** No slave is linked to two masters, and no master is linked to another. */
  lemma LinksAreApart(n: Net, a: Name, b: Name)
    requires Sound(n) && a in n.masters && b in n.masters && a != b
    ensures |LinkedTo(n, a)| + |LinkedTo(n, b)| <= |n.nodes| - 2
  {
    var la, lb := LinkedTo(n, a), LinkedTo(n, b);
    assert la !! lb;
    assert |la + lb| == |la| + |lb|;
    assert MasterOk(n.nodes, a, n.masters[a]) && MasterOk(n.nodes, b, n.masters[b]);
    assert la + lb <= n.nodes - {a, b};
    SubsetSize({a, b}, n.nodes);
    SubsetSize(la + lb, n.nodes - {a, b});
  }

  lemma CountedOrStale(n: Net, m: Name)
    requires m in n.masters
    ensures |Peers(n.masters[m].slaves)| <= |LinkedTo(n, m)| + |Stale(n, m)|
  {
    var p, l := Peers(n.masters[m].slaves), LinkedTo(n, m);
    assert p == p * l + Stale(n, m);
    SubsetSize(p * l, l);
  }

  lemma TwoMajorities(n: Net, a: Name, b: Name)
    requires Sound(n) && HasMajority(n, a) && HasMajority(n, b) && a != b
    ensures |Stale(n, a)| + |Stale(n, b)| >= 2 * (|n.nodes| / 2) + 2 - |n.nodes|
  {
    MajorityNeeds(n, a);
    MajorityNeeds(n, b);
    LinksAreApart(n, a, b);
    CountedOrStale(n, a);
    CountedOrStale(n, b);
  }

  /**
   After any run of promotions, demotions, joins, losses and whatever the
   controllers do among the nodes of one configuration, two masters that both
   have a majority count between them at least one slave, or two if the number
   of nodes is even, that has left without their noticing.
   */
  lemma TwoMajoritiesNeedStaleSlaves(nodes: set<Name>, cs: seq<Change>, n: Net, a: Name, b: Name)
    requires Reached(nodes, cs, n) && HasMajority(n, a) && HasMajority(n, b) && a != b
    ensures |Stale(n, a)| + |Stale(n, b)| >= if |nodes| % 2 == 0 then 2 else 1
  {
    ReachedSound(nodes, cs, n);
    TwoMajorities(n, a, b);
  }

  // ------------------------------------------------------------ when every loss is noticed first

  /** Every slave that is live at a master is linked to it. */
  ghost predicate Fresh(n: Net) {
    forall m :: m in n.masters ==> Live(n.masters[m].slaves) <= LinkedTo(n, m)
  }

  /** A slave leaves while its master has its connection for alive. */
  predicate Unnoticed(n: Net, c: Change) {
    c.Leaves? && c.s in n.link && n.link[c.s] in n.masters && c.s in Live(n.masters[n.link[c.s]].slaves)
  }

  lemma FreshMaster(n: Net, c: Change, m: Name)
    requires Sound(n) && Fresh(n) && CanHappen(n, c) && !Unnoticed(n, c) && m in Changed(n, c).masters
    ensures Live(Changed(n, c).masters[m].slaves) <= LinkedTo(Changed(n, c), m)
  {
    assert m in n.masters ==> Live(n.masters[m].slaves) <= LinkedTo(n, m) && MasterOk(n.nodes, m, n.masters[m]);
    hide Apply, Live, MasterOk, Internal, Fresh;
    match c
    case Promote(p, held) => NewMaster(n.nodes, p, held);
    case Joins(s, j, record, uuid) =>
      if m == j {
        JoinKeepsTable(n.nodes, j, n.masters[j], s, record, uuid);
      }
    case At(j, e) =>
      if m == j {
        InternalKeepsTable(n.nodes, j, n.masters[j], e);
      }
    case _ =>
  }

  /** Tables stay in step with the links exactly unless a slave leaves unnoticed. */
  lemma FreshStaysIff(n: Net, c: Change)
    requires Sound(n) && Fresh(n) && CanHappen(n, c)
    ensures Fresh(Changed(n, c)) <==> !Unnoticed(n, c)
  {
    if Unnoticed(n, c) {
      assert c.s !in LinkedTo(Changed(n, c), n.link[c.s]);
    } else {
      forall m | m in Changed(n, c).masters
        ensures Live(Changed(n, c).masters[m].slaves) <= LinkedTo(Changed(n, c), m)
      {
        FreshMaster(n, c, m);
      }
    }
  }

  /** A run in which no slave leaves unnoticed. */
  ghost predicate Timely(n: Net, cs: seq<Change>)
    decreases |cs|
  {
    cs == [] || (CanHappen(n, cs[0]) && !Unnoticed(n, cs[0]) && Timely(Changed(n, cs[0]), cs[1..]))
  }

  lemma {:induction false} TimelyKeepsFresh(n: Net, cs: seq<Change>, n2: Net)
    requires Sound(n) && Fresh(n) && Happens(n, cs, n2) && Timely(n, cs)
    ensures Fresh(n2)
    decreases |cs|
  {
    hide Sound, Changed, CanHappen, Fresh, Unnoticed;
    if cs != [] {
      ChangeKeepsSound(n, cs[0]);
      FreshStaysIff(n, cs[0]);
      TimelyKeepsFresh(Changed(n, cs[0]), cs[1..], n2);
    }
  }

  lemma FreshIsNotStale(n: Net, m: Name)
    requires Fresh(n) && m in n.masters
    ensures Stale(n, m) == {}
  {
    forall s | s in Peers(n.masters[m].slaves)
      ensures s in LinkedTo(n, m)
    {
      assert s in Live(n.masters[m].slaves);
    }
  }

  /** In a run in which masters notice a loss before the slave can join elsewhere, at most one master has a majority. */
  lemma AtMostOneMajority(nodes: set<Name>, cs: seq<Change>, n: Net, a: Name, b: Name)
    requires Reached(nodes, cs, n) && Timely(Net(nodes, map[], map[]), cs) && HasMajority(n, a) && HasMajority(n, b)
    ensures a == b
  {
    ReachedSound(nodes, cs, n);
    TimelyKeepsFresh(Net(nodes, map[], map[]), cs, n);
    hide Reached, Timely, Fresh, HasMajority, Sound;
    if a != b {
      assert HasMajority(n, a) && HasMajority(n, b);
      FreshIsNotStale(n, a);
      FreshIsNotStale(n, b);
      TwoMajorities(n, a, b);
    }
  }

  lemma SafeHasMajority(nodes: set<Name>, a: Name, m2: Master, ready: Receipts, j: Job)
    requires MasterOk(nodes, a, m2) && Safe(m2, ready, j)
    ensures m2.haveCluster && QuorumOf(m2.slaves).majority
  {
  }

  /**
   When a controller submits a transaction it has a majority at that moment;
   no other master has one, unless a slave one of the two counts has left unnoticed.
   */
  lemma SubmitterIsTheOnlyMajority(nodes: set<Name>, cs: seq<Change>, n: Net, a: Name, e: Event, j: Job, b: Name)
    requires Reached(nodes, cs, n) && CanHappen(n, At(a, e))
    requires Apply(n.masters[a], e).jobs[j] > n.masters[a].jobs[j]
    ensures var n2 := Changed(n, At(a, e));
      HasMajority(n2, a) && (HasMajority(n2, b) ==> b == a || Stale(n2, a) != {} || Stale(n2, b) != {})
  {
    hide Apply, MasterOk, Safe, Reached, ReadyBefore, QuorumOf, Internal, Stale;
    ReachedSound(nodes, cs, n);
    var n2 := Changed(n, At(a, e));
    ChangeKeepsSound(n, At(a, e));
    EverySubmissionIsSafe(n.masters[a], e);
    SafeHasMajority(n2.nodes, a, n2.masters[a], ReadyBefore(n.masters[a], e), j);
    hide Sound;
    if HasMajority(n2, b) && b != a {
      TwoMajorities(n2, a, b);
    }
  }

  /** A master with a full quorum, none of it stale, has every other node for its slave, so nobody else is a master. */
  lemma FullQuorumIsAlone(nodes: set<Name>, cs: seq<Change>, n: Net, m: Name)
    requires Reached(nodes, cs, n) && m in n.masters && Stale(n, m) == {}
    requires n.masters[m].haveCluster && QuorumOf(n.masters[m].slaves).full
    ensures n.masters.Keys == {m} && LinkedTo(n, m) == nodes - {m}
  {
    ReachedSound(nodes, cs, n);
    var t := n.masters[m].slaves;
    FullCountsAll(t);
    assert MasterOk(n.nodes, m, n.masters[m]) && LinksOk(n);
    forall s | s in nodes && s != m
      ensures s in LinkedTo(n, m) && s !in n.masters
    {
      assert s in Peers(t) && s !in Stale(n, m);
    }
    forall o | o in n.masters
      ensures o == m
    {
      assert MasterOk(n.nodes, o, n.masters[o]);
    }
  }

  lemma FullCountsAll(t: Slaves)
    requires QuorumOf(t).full
    ensures Peers(t) == t.Keys
  {
    assert |t.Keys| == |t|;
    if t != map[] {
      SameSize(Peers(t), t.Keys);
    }
  }

  // ------------------------------------------------------------ two nodes cannot both have a majority

  /** No two masters are live in each other's tables: the later to be promoted started with an empty one. */
  ghost predicate NotMutual(n: Net) {
    forall a, b :: a in n.masters && b in n.masters && a != b && b in Live(n.masters[a].slaves)
      ==> a !in Live(n.masters[b].slaves)
  }

  /** A table gains at most a slave that joins, and that is no master. */
  lemma LiveGains(n: Net, c: Change, m: Name)
    requires Sound(n) && CanHappen(n, c) && m in Changed(n, c).masters
    ensures var n2 := Changed(n, c);
      if m !in n.masters then Live(n2.masters[m].slaves) == {}
      else Live(n2.masters[m].slaves) <= Live(n.masters[m].slaves) + (if c.Joins? then {c.s} else {})
  {
    assert m in n.masters ==> MasterOk(n.nodes, m, n.masters[m]);
    hide Apply, Live, MasterOk, Internal;
    match c
    case Promote(p, held) => NewMaster(n.nodes, p, held);
    case Joins(s, j, record, uuid) =>
      if m == j {
        JoinKeepsTable(n.nodes, j, n.masters[j], s, record, uuid);
      }
    case At(j, e) =>
      if m == j {
        InternalKeepsTable(n.nodes, j, n.masters[j], e);
      }
    case _ =>
  }

  lemma ChangeKeepsNotMutual(n: Net, c: Change)
    requires Sound(n) && NotMutual(n) && CanHappen(n, c)
    ensures NotMutual(Changed(n, c))
  {
    var n2 := Changed(n, c);
    forall a, b | a in n2.masters && b in n2.masters && a != b && b in Live(n2.masters[a].slaves)
      ensures a !in Live(n2.masters[b].slaves)
    {
      LiveGains(n, c, a);
      LiveGains(n, c, b);
      hide Live, Apply, Sound;
      assert c.Joins? ==> c.s !in n2.masters;
    }
  }

  lemma {:induction false} HappensKeepsNotMutual(n: Net, cs: seq<Change>, n2: Net)
    requires Sound(n) && NotMutual(n) && Happens(n, cs, n2)
    ensures NotMutual(n2)
    decreases |cs|
  {
    hide Sound, Changed, CanHappen, NotMutual;
    if cs != [] {
      ChangeKeepsSound(n, cs[0]);
      ChangeKeepsNotMutual(n, cs[0]);
      HappensKeepsNotMutual(Changed(n, cs[0]), cs[1..], n2);
    }
  }

  lemma PeersAreLive(n: Net, m: Name)
    requires m in n.masters
    ensures Peers(n.masters[m].slaves) <= Live(n.masters[m].slaves)
  {
  }

  /** Of two nodes, a master with a majority counts the other one. */
  lemma OtherIsLive(n: Net, a: Name, b: Name)
    requires Sound(n) && HasMajority(n, a) && n.nodes == {a, b} && a != b
    ensures b in Live(n.masters[a].slaves)
  {
    MajorityNeeds(n, a);
    PeersAreLive(n, a);
    assert MasterOk(n.nodes, a, n.masters[a]);
    assert Peers(n.masters[a].slaves) <= {b};
    assert Peers(n.masters[a].slaves) != {};
  }

  lemma TwoMajoritiesNeedThreeNodes(nodes: set<Name>, cs: seq<Change>, n: Net, a: Name, b: Name)
    requires Reached(nodes, cs, n) && HasMajority(n, a) && HasMajority(n, b) && a != b
    ensures |nodes| >= 3
  {
    ReachedSound(nodes, cs, n);
    HappensKeepsNotMutual(Net(nodes, map[], map[]), cs, n);
    assert MasterOk(n.nodes, a, n.masters[a]) && MasterOk(n.nodes, b, n.masters[b]);
    SubsetSize({a, b}, nodes);
    if |nodes| == 2 {
      SameSize({a, b}, nodes);
      hide MasterOk, Live, QuorumOf, Sound, Reached;
      OtherIsLive(n, a, b);
      OtherIsLive(n, b, a);
      assert false;
    }
  }

  // ------------------------------------------------------------ a master comes to count any slaves

  const COUNTED := Slave(Conn(0, 0, true, true), map[], NoSync, true)

  /** The table of a controller that counts exactly the slaves of counted. */
  function Table(others: set<Name>, counted: set<Name>): Slaves {
    map p | p in others :: if p in counted then COUNTED else NEWSLAVE
  }

  lemma HappensFirst(n: Net, c: Change, cs: seq<Change>, n2: Net)
    requires CanHappen(n, c) && Happens(Changed(n, c), cs, n2)
    ensures Happens(n, [c] + cs, n2)
  {
    assert ([c] + cs)[1..] == cs;
  }

  lemma {:induction false} HappensCompose(n: Net, a: seq<Change>, n1: Net, b: seq<Change>, n2: Net)
    requires Happens(n, a, n1) && Happens(n1, b, n2)
    ensures Happens(n, a + b, n2)
    decreases |a|
  {
    if a == [] {
      assert a + b == b;
    } else {
      HappensCompose(Changed(n, a[0]), a[1..], n1, b, n2);
      assert (a + b)[1..] == a[1..] + b;
    }
  }

  lemma ToldTable(t: Master, names: set<Name>)
    ensures var t2 := Apply(t, ClusterUpdated(names));
      t2.haveCluster && t2.slaves == Cleaned(Reconfigured(t.slaves, names))
  {
    ComputedTable(t.(slaves := Reconfigured(t.slaves, names), haveCluster := true), !t.haveCluster);
    hide Computed, Reconfigured, Cleaned;
  }

  lemma JoinedTable(t: Master, s: Name)
    requires t.haveCluster && s in t.slaves
    ensures var t2 := Apply(t, PeerNewMaster(s, 0, 0));
      t2.haveCluster && t2.slaves == Cleaned(t.slaves[s := NEWSLAVE])[s := Joined(0, 0)]
  {
    ComputedTable(t.(slaves := t.slaves[s := NEWSLAVE]), false);
    hide Computed, Cleaned;
  }

  lemma CompletedSlaves(t: Master, locked: set<Name>)
    ensures var t2, c := Apply(t, CheckCopyCompleted(locked)), CompletedAll(t.slaves, locked);
      t2.haveCluster == t.haveCluster && (t2.slaves == c || t2.slaves == Cleaned(c))
  {
    ComputedTable(t.(slaves := CompletedAll(t.slaves, locked)), false);
    hide Computed, CompletedAll, Cleaned, Completes;
  }

  lemma TableStarts(others: set<Name>)
    ensures Reconfigured(map[], others) == Table(others, {})
  {
  }

  lemma TableIsClean(others: set<Name>, counted: set<Name>)
    ensures Cleaned(Table(others, counted)) == Table(others, counted)
  {
  }

  /** A slave whose copy has just ended. */
  function Copied(): Slave {
    Joined(0, 0).(conn := Conn(0, 0, true, true), sync := Syncing(false, false))
  }

  lemma TableCompletes(others: set<Name>, counted: set<Name>, s: Name)
    requires s in others && s !in counted
    ensures CompletedAll(Table(others, counted)[s := Copied()], {s}) == Table(others, counted + {s})
  {
  }

  /** A slave joins the table. */
  lemma TableJoins(t: Master, others: set<Name>, counted: set<Name>, s: Name) returns (t2: Master)
    requires t.haveCluster && t.slaves == Table(others, counted) && s in others && s !in counted
    ensures t2 == Apply(t, PeerNewMaster(s, 0, 0))
    ensures t2.haveCluster && t2.slaves == Table(others, counted)[s := Joined(0, 0)]
  {
    t2 := Apply(t, PeerNewMaster(s, 0, 0));
    JoinedTable(t, s);
    TableIsClean(others, counted);
    hide Apply, Cleaned;
    assert t.slaves[s := NEWSLAVE] == t.slaves;
  }

  /** Its repository is copied, whereupon it counts. */
  lemma TableCounts(t2: Master, others: set<Name>, counted: set<Name>, s: Name) returns (t: Master)
    requires t2.haveCluster && t2.slaves == Table(others, counted)[s := Joined(0, 0)] && s in others && s !in counted
    ensures t == Apply(Apply(Apply(Apply(t2, Accepted(s)), SyncSlave(s, 0, true)), CopyEnded(s)), CheckCopyCompleted({s}))
    ensures t.haveCluster && t.slaves == Table(others, counted + {s})
  {
    var t5 := Apply(Apply(Apply(t2, Accepted(s)), SyncSlave(s, 0, true)), CopyEnded(s));
    assert t5.haveCluster && t5.slaves == Table(others, counted)[s := Copied()];
    TableCompletes(others, counted, s);
    TableIsClean(others, counted + {s});
    CompletedSlaves(t5, {s});
    hide Apply, CompletedAll, Cleaned, Table;
    t := Apply(t5, CheckCopyCompleted({s}));
  }

  lemma OverWritten(masters: map<Name, Master>, m: Name, t: Master, t2: Master)
    ensures masters[m := t][m := t2] == masters[m := t2]
  {
  }

  /** One event at a master. */
  lemma AtHappens(n: Net, m: Name, e: Event, t2: Master, cs: seq<Change>, n2: Net)
    requires m in n.masters && Internal(n.nodes, m, e) && t2 == Apply(n.masters[m], e)
    requires Happens(n.(masters := n.masters[m := t2]), cs, n2)
    ensures Happens(n, [At(m, e)] + cs, n2)
  {
    hide Apply;
    HappensFirst(n, At(m, e), cs, n2);
  }

  lemma CopyHappens(n: Net, m: Name, s: Name, t: Master) returns (cs: seq<Change>)
    requires m in n.masters
    requires t == Apply(Apply(Apply(Apply(n.masters[m], Accepted(s)), SyncSlave(s, 0, true)), CopyEnded(s)), CheckCopyCompleted({s}))
    ensures Happens(n, cs, n.(masters := n.masters[m := t]))
  {
    hide Apply;
    var t1 := Apply(n.masters[m], Accepted(s));
    var t2 := Apply(t1, SyncSlave(s, 0, true));
    var t3 := Apply(t2, CopyEnded(s));
    var n1, n2 := n.(masters := n.masters[m := t1]), n.(masters := n.masters[m := t2]);
    var n3, n4 := n.(masters := n.masters[m := t3]), n.(masters := n.masters[m := t]);
    assert n1.(masters := n1.masters[m := t2]) == n2 && n2.(masters := n2.masters[m := t3]) == n3;
    assert n3.(masters := n3.masters[m := t]) == n4;
    AtHappens(n3, m, CheckCopyCompleted({s}), t, [], n4);
    cs := [At(m, CheckCopyCompleted({s}))] + [];
    AtHappens(n2, m, CopyEnded(s), t3, cs, n4);
    cs := [At(m, CopyEnded(s))] + cs;
    AtHappens(n1, m, SyncSlave(s, 0, true), t2, cs, n4);
    cs := [At(m, SyncSlave(s, 0, true))] + cs;
    AtHappens(n, m, Accepted(s), t1, cs, n4);
    cs := [At(m, Accepted(s))] + cs;
  }

  /** A master that counts exactly the given slaves, and has all other nodes in its table. */
  predicate CountsExactly(n: Net, m: Name, counted: set<Name>) {
    m in n.masters && n.masters[m].haveCluster && n.masters[m].slaves == Table(n.nodes - {m}, counted)
  }

  /** The nodes, links and masters besides m and what concerns it. */
  predicate Besides(n: Net, n2: Net, m: Name, joined: set<Name>) {
    && n2.nodes == n.nodes && n2.masters.Keys == n.masters.Keys + {m}
    && (forall o :: o in n.masters && o != m ==> n2.masters[o] == n.masters[o])
    && n2.link.Keys == n.link.Keys + joined
    && forall s :: s in n2.link ==> n2.link[s] == if s in joined then m else n.link[s]
  }

  lemma AdoptedIs(n: Net, m: Name, s: Name, t2: Master, t: Master, counted: set<Name>)
    requires m in n.masters && t.haveCluster && t.slaves == Table(n.nodes - {m}, counted)
    ensures var n1 := n.(link := n.link[s := m], masters := n.masters[m := t2]);
      var n2 := n1.(masters := n1.masters[m := t]);
      CountsExactly(n2, m, counted) && Besides(n, n2, m, {s})
  {
    hide Table;
  }

  lemma JoinsNow(n: Net, m: Name, s: Name, t2: Master, cs: seq<Change>, n2: Net)
    requires m in n.masters && s in n.nodes - {m} && s !in n.link && s !in n.masters
    requires t2 == Apply(n.masters[m], PeerNewMaster(s, 0, 0))
    requires Happens(n.(link := n.link[s := m], masters := n.masters[m := t2]), cs, n2)
    ensures Happens(n, [Joins(s, m, 0, 0)] + cs, n2)
  {
    hide Apply;
    assert Changed(n, Joins(s, m, 0, 0)) == n.(link := n.link[s := m], masters := n.masters[m := t2]);
    HappensFirst(n, Joins(s, m, 0, 0), cs, n2);
  }

  /** One more slave joins and comes to count. */
  lemma AdoptsOne(n: Net, m: Name, counted: set<Name>, s: Name) returns (cs: seq<Change>, n2: Net)
    requires CountsExactly(n, m, counted) && s in n.nodes - {m} && s !in counted
    requires s !in n.link && s !in n.masters
    ensures Happens(n, cs, n2) && CountsExactly(n2, m, counted + {s}) && Besides(n, n2, m, {s})
  {
    var t2 := TableJoins(n.masters[m], n.nodes - {m}, counted, s);
    var t := TableCounts(t2, n.nodes - {m}, counted, s);
    hide Apply, Table, Happens, CountsExactly, Besides;
    var n1 := n.(link := n.link[s := m], masters := n.masters[m := t2]);
    cs := CopyHappens(n1, m, s, t);
    n2 := n1.(masters := n1.masters[m := t]);
    AdoptedIs(n, m, s, t2, t, counted + {s});
    JoinsNow(n, m, s, t2, cs, n2);
    cs := [Joins(s, m, 0, 0)] + cs;
  }

  lemma BesidesThen(n: Net, n1: Net, n2: Net, m: Name, joined: set<Name>, more: set<Name>)
    requires Besides(n, n1, m, joined) && Besides(n1, n2, m, more) && joined !! more
    ensures Besides(n, n2, m, joined + more)
  {
  }

  lemma BesidesApart(n: Net, n1: Net, m: Name, s: Name, todo: set<Name>)
    requires Besides(n, n1, m, {s}) && m in n.masters && s !in todo
    requires todo !! n.link.Keys && todo !! n.masters.Keys
    ensures n1.nodes == n.nodes && m in n1.masters && todo !! n1.link.Keys && todo !! n1.masters.Keys
  {
  }

  lemma AdoptsNone(n: Net, m: Name, counted: set<Name>)
    requires CountsExactly(n, m, counted)
    ensures m in n.masters && Happens(n, [], n) && CountsExactly(n, m, counted + {}) && Besides(n, n, m, {})
  {
    assert counted + {} == counted;
    hide Table;
  }

  lemma TakeOne(todo: set<Name>, counted: set<Name>, s: Name) returns (rest: set<Name>)
    requires s in todo && todo !! counted
    ensures rest == todo - {s} && rest !! counted + {s} && |rest| < |todo| && rest <= todo && {s} !! rest
    ensures counted + {s} + rest == counted + todo && {s} + rest == todo
  {
    rest := todo - {s};
  }

  lemma {:induction false} AdoptsAll(n: Net, m: Name, counted: set<Name>, todo: set<Name>) returns (cs: seq<Change>, n2: Net)
    requires CountsExactly(n, m, counted) && todo <= n.nodes - {m} && todo !! counted
    requires todo !! n.link.Keys && todo !! n.masters.Keys
    ensures Happens(n, cs, n2) && CountsExactly(n2, m, counted + todo) && Besides(n, n2, m, todo)
    decreases |todo|
  {
    hide Happens, CountsExactly, Besides;
    AdoptsNone(n, m, counted);
    if todo == {} {
      cs, n2 := [], n;
    } else {
      var s :| s in todo;
      var rest := TakeOne(todo, counted, s);
      var first, n1 := AdoptsOne(n, m, counted, s);
      BesidesApart(n, n1, m, s, rest);
      var later;
      later, n2 := AdoptsAll(n1, m, counted + {s}, rest);
      BesidesThen(n, n1, n2, m, {s}, rest);
      HappensCompose(n, first, n1, later, n2);
      cs := first + later;
    }
  }

  lemma NothingHappens(n: Net)
    ensures Happens(n, [], n)
  {
  }

  /** A node is promoted and told of the others. */
  lemma Starts(n: Net, m: Name) returns (cs: seq<Change>, n2: Net)
    requires m in n.nodes && m !in n.masters && m !in n.link
    ensures Happens(n, cs, n2) && CountsExactly(n2, m, {}) && Besides(n, n2, m, {})
  {
    var others := n.nodes - {m};
    var t := Apply(Start(false), ClusterUpdated(others));
    ToldTable(Start(false), others);
    TableStarts(others);
    TableIsClean(others, {});
    hide Apply, Table, Cleaned, Reconfigured;
    var n1 := n.(masters := n.masters[m := Start(false)]);
    n2 := n1.(masters := n1.masters[m := t]);
    NothingHappens(n2);
    AtHappens(n1, m, ClusterUpdated(others), t, [], n2);
    HappensFirst(n, Promote(m, false), [At(m, ClusterUpdated(others))] + [], n2);
    cs := [Promote(m, false)] + ([At(m, ClusterUpdated(others))] + []);
  }

  lemma Becomes(n: Net, m: Name, counted: set<Name>) returns (cs: seq<Change>, n2: Net)
    requires m in n.nodes && m !in n.masters && m !in n.link
    requires counted <= n.nodes - {m} && counted !! n.link.Keys && counted !! n.masters.Keys
    ensures Happens(n, cs, n2) && CountsExactly(n2, m, counted) && Besides(n, n2, m, counted)
  {
    var first, n1 := Starts(n, m);
    hide CountsExactly, Happens;
    var rest;
    rest, n2 := AdoptsAll(n1, m, {}, counted);
    HappensCompose(n, first, n1, rest, n2);
    assert {} + counted == counted;
    cs := first + rest;
  }

  lemma {:induction false} LeaveAll(n: Net, todo: set<Name>) returns (cs: seq<Change>)
    requires todo <= n.link.Keys
    ensures Happens(n, cs, n.(link := n.link - todo))
    decreases |todo|
  {
    if todo == {} {
      cs := [];
      assert n.link - todo == n.link;
    } else {
      var s :| s in todo;
      var n1 := n.(link := n.link - {s});
      cs := LeaveAll(n1, todo - {s});
      assert n1.link - (todo - {s}) == n.link - todo;
      HappensFirst(n, Leaves(s), cs, n.(link := n.link - todo));
      cs := [Leaves(s)] + cs;
    }
  }

  lemma CountsAre(n: Net, m: Name, counted: set<Name>)
    requires CountsExactly(n, m, counted) && counted <= n.nodes - {m} && m in n.nodes
    ensures Peers(n.masters[m].slaves) == counted
    ensures |counted| >= |n.nodes| / 2 ==> HasMajority(n, m)
  {
    var t := n.masters[m].slaves;
    assert Peers(t) == counted;
    assert t.Keys == n.nodes - {m};
    assert n.nodes == t.Keys + {m};
    assert |t| == |t.Keys| == |n.nodes| - 1;
  }

  // ------------------------------------------------------------ exactly how many stale slaves two majorities take

  lemma {:induction false} SomeOf(s: set<Name>, k: nat) returns (r: set<Name>)
    requires k <= |s|
    ensures r <= s && |r| == k
    decreases k
  {
    if k == 0 {
      r := {};
    } else {
      var x :| x in s;
      var r1 := SomeOf(s - {x}, k - 1);
      r := r1 + {x};
    }
  }

  /** Slaves for a, those of them that move on, and slaves for b. */
  lemma Shares(rest: set<Name>, half: nat, moving: nat) returns (s: set<Name>, x: set<Name>)
    requires moving <= half <= |rest| && |rest| + moving == 2 * half
    ensures x <= s <= rest && |s| == half && |x| == moving && |rest - s + x| == half
  {
    s := SomeOf(rest, half);
    x := SomeOf(s, moving);
    SubsetSize(s, rest);
    assert (rest - s) !! x;
    assert |rest - s + x| == |rest - s| + |x|;
  }

  /** The least number of slaves that have to leave unnoticed for two majorities. */
  function Fewest(nodes: set<Name>): nat {
    if |nodes| % 2 == 0 then 2 else 1
  }

  /**
   Of any three or more nodes any two can come to have a majority: as few of
   the slaves of one as the theorem above asks for leave it unnoticed and join
   the other.
   */
  lemma UnnoticedLossSplits(nodes: set<Name>, a: Name, b: Name) returns (cs: seq<Change>, n: Net)
    requires a in nodes && b in nodes && a != b && |nodes| >= 3
    ensures Reached(nodes, cs, n) && HasMajority(n, a) && HasMajority(n, b)
    ensures |Stale(n, a)| == Fewest(nodes) && Stale(n, b) == {}
  {
    var rest := nodes - {a, b};
    SubsetSize({a, b}, nodes);
    var s, x := Shares(rest, |nodes| / 2, Fewest(nodes));
    hide Reached, Happens, CountsExactly, HasMajority, Stale;
    var n0 := Net(nodes, map[], map[]);
    var first, n1 := Becomes(n0, a, s);
    var leaving := LeaveAll(n1, x);
    var n2 := n1.(link := n1.link - x);
    CountsFrame(n1, n2, a, s);
    var second;
    second, n := Becomes(n2, b, rest - s + x);
    CountsFrame(n2, n, a, s);
    HappensCompose(n0, first, n1, leaving, n2);
    HappensCompose(n0, first + leaving, n2, second, n);
    cs := first + leaving + second;
    SplitNow(nodes, n, a, b, s, x);
    ReachedIs(nodes, cs, n);
  }

  lemma ReachedIs(nodes: set<Name>, cs: seq<Change>, n: Net)
    requires Happens(Net(nodes, map[], map[]), cs, n)
    ensures Reached(nodes, cs, n)
  {
  }

  lemma CountsFrame(n: Net, n2: Net, m: Name, counted: set<Name>)
    requires CountsExactly(n, m, counted) && n2.nodes == n.nodes && m in n2.masters && n2.masters[m] == n.masters[m]
    ensures CountsExactly(n2, m, counted)
  {
  }

  lemma SplitNow(nodes: set<Name>, n: Net, a: Name, b: Name, s: set<Name>, x: set<Name>)
    requires n.nodes == nodes && a in nodes && b in nodes && a != b
    requires x <= s <= nodes - {a, b} && |s| == |nodes| / 2 && |nodes - {a, b} - s + x| == |nodes| / 2
    requires CountsExactly(n, a, s) && CountsExactly(n, b, nodes - {a, b} - s + x)
    requires forall p :: p in s - x ==> p in n.link && n.link[p] == a
    requires forall p :: p in nodes - {a, b} - s + x ==> p in n.link && n.link[p] == b
    ensures HasMajority(n, a) && HasMajority(n, b) && Stale(n, a) == x && Stale(n, b) == {}
  {
    CountsAre(n, a, s);
    CountsAre(n, b, nodes - {a, b} - s + x);
    hide CountsExactly, Peers, HasMajority;
  }

  ghost predicate Splits(nodes: set<Name>, k: nat, cs: seq<Change>, n: Net, a: Name, b: Name) {
    && Reached(nodes, cs, n) && HasMajority(n, a) && HasMajority(n, b) && a != b
    && |Stale(n, a)| + |Stale(n, b)| <= k
  }

  /**
   Two masters can both have a majority with no more than k slaves that left
   unnoticed if and only if there are at least three nodes and k is at least
   one, or two if the number of nodes is even.
   */
  lemma TwoMajoritiesOccurIff(nodes: set<Name>, k: nat)
    ensures (exists cs, n, a, b :: Splits(nodes, k, cs, n, a, b)) <==> |nodes| >= 3 && k >= Fewest(nodes)
  {
    hide Reached, HasMajority, Stale;
    if cs, n, a, b :| Splits(nodes, k, cs, n, a, b) {
      TwoMajoritiesNeedThreeNodes(nodes, cs, n, a, b);
      TwoMajoritiesNeedStaleSlaves(nodes, cs, n, a, b);
    }
    if |nodes| >= 3 && k >= Fewest(nodes) {
      var pair := SomeOf(nodes, 2);
      var a :| a in pair;
      assert |pair - {a}| == 1;
      var b :| b in pair - {a};
      var cs, n := UnnoticedLossSplits(nodes, a, b);
      assert Splits(nodes, k, cs, n, a, b);
    }
  }
}
