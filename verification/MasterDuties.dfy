/** What a master controller must do when it is told something, and which slaves it may count. */
module MasterDuties {
  import opened Sets
  import opened Stores
  import opened MasterController
  import opened MasterRuns

  // ------------------------------------------------------------ nothing waits without reason

  /**
   After a report by any node, with a majority before and after it and commits
   enabled, each reported transaction still waiting is one that some counted
   slave has not received.
   */
  lemma ReportedWaitsForSlaves(m: Master, node: Node, uuids: Receipts)
    requires m.quorum.majority && m.commits && Apply(m, Received(node, uuids)).quorum.majority
    ensures var m2 := Apply(m, Received(node, uuids));
      forall u :: u in uuids && u in m2.ready ==>
        exists p :: p in m2.slaves && m2.slaves[p].conn.Conn? && (m2.slaves[p].conn.peer || m2.slaves[p].conn.link)
                 && m2.slaves[p].synced && u !in m2.slaves[p].received
  {
    var m1, m2 := ReceivedBy(m, node, uuids), Apply(m, Received(node, uuids));
    ReceivedKeepsQuorum(m, node, uuids);
    ReportHandled(m, node, uuids);
    CheckedLeaves(m1, uuids.Keys);
    hide Apply, ReceivedBy, Checked;
    forall u | u in uuids && u in m2.ready
      ensures Awaited(m2.slaves, u)
    {
      assert u in uuids.Keys;
    }
  }

  lemma ReportHandled(m: Master, node: Node, uuids: Receipts)
    ensures var m1 := ReceivedBy(m, node, uuids);
      Apply(m, Received(node, uuids)) == if m.quorum.majority then Checked(m1, uuids.Keys) else m1
  {
    hide ReceivedBy, Checked;
  }

  /** The events that make the controller consider everything it has received. */
  predicate Reconsiders(m: Master, e: Event) {
    Apply(m, e).quorum != m.quorum || (e.ClusterUpdated? && !m.haveCluster)
  }

  ghost predicate AllAwaited(m: Master) {
    forall u :: u in m.ready ==> Awaited(m.slaves, u)
  }

  lemma JoiningLeaves(m: Master, p: Name, record: nat, uuid: Uuid)
    requires Reconsiders(m, PeerNewMaster(p, record, uuid))
    ensures var m2 := Apply(m, PeerNewMaster(p, record, uuid)); m2.quorum.majority && m2.commits ==> AllAwaited(m2)
  {
    var m0 := m.(slaves := m.slaves[p := NEWSLAVE]);
    ComputedLeaves(m0, false);
    var m1, m2 := ComputedIfKnown(m0, false), Apply(m, PeerNewMaster(p, record, uuid));
    assert p in m.slaves && m1.slaves == Cleaned(m0.slaves);
    assert p in m1.slaves && m1.slaves[p] == NEWSLAVE;
    hide Computed, Cleaned;
    if m2.quorum.majority && m2.commits {
      forall u | u in m2.ready
        ensures Awaited(m2.slaves, u)
      {
        var q :| q in m1.slaves && m1.slaves[q].conn.Conn? && (m1.slaves[q].conn.peer || m1.slaves[q].conn.link)
              && m1.slaves[q].synced && u !in m1.slaves[q].received;
        assert m2.slaves[q] == m1.slaves[q];
      }
    }
  }

  /**
   Whenever the quorum changes to one with a majority, or is computed for the
   first cluster update, every received transaction that then still waits is
   one that some counted slave has not received.
   */
  lemma QuorumChangeSubmitsAll(m: Master, e: Event)
    requires Reconsiders(m, e) && Apply(m, e).quorum.majority && Apply(m, e).commits
    ensures var m2 := Apply(m, e);
      forall u :: u in m2.ready ==>
        exists p :: p in m2.slaves && m2.slaves[p].conn.Conn? && (m2.slaves[p].conn.peer || m2.slaves[p].conn.link)
                 && m2.slaves[p].synced && u !in m2.slaves[p].received
  {
    assert AllAwaited(Apply(m, e)) by {
      ReconsideringLeaves(m, e);
    }
  }

  lemma ReconsideringLeaves(m: Master, e: Event)
    requires Reconsiders(m, e) && Apply(m, e).quorum.majority && Apply(m, e).commits
    ensures AllAwaited(Apply(m, e))
  {
    hide Awaited, Computed, Checked, ReceivedBy, Reconfigured, CompletedAll, Completes;
    match e
    case ClusterUpdated(names) =>
      ComputedLeaves(m.(slaves := Reconfigured(m.slaves, names), haveCluster := true), !m.haveCluster);
    case PeerNewMaster(p, record, uuid) => JoiningLeaves(m, p, record, uuid);
    case CheckCopyCompleted(locked) => ComputedLeaves(m.(slaves := CompletedAll(m.slaves, locked)), false);
    case Received(node, uuids) =>
      ReceivedKeepsQuorum(m, node, uuids);
      CheckedLeaves(ReceivedBy(m, node, uuids), uuids.Keys);
    case CheckQuorum => ComputedLeaves(m, false);
    case HandoffFailed => ComputedLeaves(m.(commits := true), false);
    case _ =>
  }

  lemma ReceivedKeepsQuorum(m: Master, node: Node, uuids: Receipts)
    ensures var m1 := ReceivedBy(m, node, uuids); m1.quorum == m.quorum && m1.commits == m.commits && m1.jobs == m.jobs
  {
  }

  // ------------------------------------------------------------ no transaction is lost

  /** The transaction still waits, or was submitted meanwhile. */
  ghost predicate Handed(m: Master, m2: Master, u: Uuid) {
    m.jobs <= m2.jobs && (u in m2.ready || exists j :: m2.jobs[j] > m.jobs[j] && j.uuid == u)
  }

  lemma SubmittedHands(m: Master, peers: set<Name>, uuids: set<Uuid>, u: Uuid)
    requires u in m.ready
    ensures Handed(m, Submitted(m, peers, uuids), u)
  {
    var m2 := Submitted(m, peers, uuids);
    if u !in m2.ready {
      var j := JobOf(m, peers, u);
      assert j in JobsOf(m, peers, Eligible(m, peers, uuids));
      assert m2.jobs[j] > m.jobs[j] && j.uuid == u;
    }
  }

  lemma HandedOn(m: Master, m1: Master, m2: Master, u: Uuid)
    requires Handed(m, m1, u) && (u in m1.ready ==> Handed(m1, m2, u)) && m1.jobs <= m2.jobs
    ensures Handed(m, m2, u)
  {
    if u !in m2.ready {
      if u in m1.ready {
        var j :| m2.jobs[j] > m1.jobs[j] && j.uuid == u;
        assert m2.jobs[j] > m.jobs[j];
      } else {
        var j :| m1.jobs[j] > m.jobs[j] && j.uuid == u;
        assert m2.jobs[j] > m.jobs[j];
      }
    }
  }

  lemma ComputedHands(m: Master, force: bool, u: Uuid)
    requires u in m.ready
    ensures Handed(m, Computed(m, force), u)
  {
    hide Submitted;
    var m1 := m.(slaves := Cleaned(m.slaves), quorum := Announced(m.held, QuorumOf(m.slaves)));
    SubmittedHands(m1, Peers(m.slaves), m.ready.Keys, u);
  }

  lemma CheckedHands(m: Master, uuids: set<Uuid>, u: Uuid)
    requires u in m.ready
    ensures Handed(m, Checked(m, uuids), u)
  {
    var m1 := Computed(m, false);
    ComputedHands(m, false, u);
    hide Computed;
    SubmittedGrows(m1, Peers(m.slaves), uuids);
    if u in m1.ready {
      SubmittedHands(m1, Peers(m.slaves), uuids, u);
    }
    HandedOn(m, m1, Submitted(m1, Peers(m.slaves), uuids), u);
    hide Submitted, Handed;
  }

  lemma SameHands(m: Master, m2: Master, u: Uuid)
    requires m2.jobs == m.jobs && u in m2.ready
    ensures Handed(m, m2, u)
  {
  }

  /** A transaction that was received leaves only by being submitted, or cancelled on this node. */
  lemma LeavesByJobOrCancel(m: Master, e: Event, u: Uuid)
    requires u in ReadyBefore(m, e) && !(e.Cancelled? && e.node.ThisNode? && u in e.gone)
    ensures m.jobs <= Apply(m, e).jobs
    ensures u in Apply(m, e).ready || exists j :: Apply(m, e).jobs[j] > m.jobs[j] && j.uuid == u
  {
    assert Handed(m, Apply(m, e), u) by {
      StepHands(m, e, u);
    }
  }

  lemma StepHands(m: Master, e: Event, u: Uuid)
    requires u in ReadyBefore(m, e) && !(e.Cancelled? && e.node.ThisNode? && u in e.gone)
    ensures Handed(m, Apply(m, e), u)
  {
    hide Handed, Computed, Checked, ReceivedBy, Reconfigured, CompletedAll, Completes;
    match e
    case ClusterUpdated(names) =>
      var m1 := m.(slaves := Reconfigured(m.slaves, names), haveCluster := true);
      ComputedHands(m1, !m.haveCluster, u);
      HandsFrame(m1, Apply(m, e), m, Apply(m, e), u);
    case PeerNewMaster(p, record, uuid) =>
      SameHands(m, m, u);
      var m1 := m.(slaves := m.slaves[p := NEWSLAVE]);
      SameHands(m1, m1, u);
      ComputedHands(m1, false, u);
      HandsFrame(m1, ComputedIfKnown(m1, false), m, if p in m.slaves then Apply(m, e) else ComputedIfKnown(m1, false), u);
    case CheckCopyCompleted(locked) =>
      var m1 := m.(slaves := CompletedAll(m.slaves, locked));
      SameHands(m1, m1, u);
      ComputedHands(m1, false, u);
      HandsFrame(m1, Apply(m, e), m, Apply(m, e), u);
    case Received(node, uuids) =>
      var m1 := ReceivedBy(m, node, uuids);
      ReceivedByFields(m, node, uuids);
      SameHands(m1, m1, u);
      CheckedHands(m1, uuids.Keys, u);
      HandsFrame(m1, Apply(m, e), m, Apply(m, e), u);
    case CheckQuorum =>
      SameHands(m, m, u);
      ComputedHands(m, false, u);
    case HandoffFailed =>
      var m1 := m.(commits := true);
      SameHands(m1, m1, u);
      ComputedHands(m1, false, u);
      HandsFrame(m1, Apply(m, e), m, Apply(m, e), u);
    case _ => SameHands(m, Apply(m, e), u);
  }

  lemma HandsFrame(a: Master, b: Master, a2: Master, b2: Master, u: Uuid)
    requires Handed(a, b, u) && a2.jobs == a.jobs && b2.jobs == b.jobs && b2.ready == b.ready
    ensures Handed(a2, b2, u)
  {
  }

  /** The transaction waits or has a job. */
  ghost predicate Kept(m: Master, u: Uuid) {
    u in m.ready || exists j :: j in m.jobs && j.uuid == u
  }

  predicate Cancels(e: Event, u: Uuid) {
    e.Cancelled? && e.node.ThisNode? && u in e.gone
  }

  lemma StepKeepsTransaction(m: Master, e: Event, u: Uuid)
    requires u in ReadyBefore(m, e) || Kept(m, u)
    requires !Cancels(e, u)
    ensures Kept(Apply(m, e), u)
  {
    hide Apply;
    StepGrows(m, e);
    if u in ReadyBefore(m, e) {
      LeavesByJobOrCancel(m, e, u);
      if u !in Apply(m, e).ready {
        var j :| Apply(m, e).jobs[j] > m.jobs[j] && j.uuid == u;
        assert j in Apply(m, e).jobs;
      }
    } else {
      var j :| j in m.jobs && j.uuid == u;
      assert j in Apply(m, e).jobs;
    }
  }

  lemma {:induction false} KeptAlong(m: Master, es: seq<Event>, u: Uuid)
    requires Kept(m, u) && forall k :: 0 <= k < |es| ==> !Cancels(es[k], u)
    ensures Kept(After(m, es), u)
    decreases |es|
  {
    hide Apply, Kept, Cancels;
    if es != [] {
      StepKeepsTransaction(m, es[0], u);
      KeptAlong(Apply(m, es[0]), es[1..], u);
    }
  }

  /**
   Over every run, a transaction this node was told of waits or has a job,
   unless it was cancelled on this node since.
   */
  lemma {:induction false} NoTransactionIsLost(m: Master, es: seq<Event>, i: nat, u: Uuid)
    requires i < |es| && es[i].Received? && es[i].node.ThisNode? && u in es[i].uuids
    requires forall k :: i < k < |es| ==> !(es[k].Cancelled? && es[k].node.ThisNode? && u in es[k].gone)
    ensures u in After(m, es).ready || exists j :: j in After(m, es).jobs && j.uuid == u
    decreases i
  {
    hide Apply;
    var m1 := Apply(m, es[0]);
    if i == 0 {
      StepKeepsTransaction(m, es[0], u);
      KeptAlong(m1, es[1..], u);
    } else {
      NoTransactionIsLost(m1, es[1..], i - 1, u);
    }
  }

  // ------------------------------------------------------------ what reports and cancellations do

  /** A slave's report over its current connection is added to what it reported before, which stands. */
  lemma ReportIsRecorded(m: Master, p: Name, record: nat, uuids: Receipts)
    requires p in m.slaves && m.slaves[p].conn.Conn? && m.slaves[p].conn.record == record
    requires m.slaves[p].conn.peer || m.slaves[p].conn.link
    ensures var m2, was := Apply(m, Received(Peer(p, record), uuids)), m.slaves[p].received;
      && p in m2.slaves && m2.slaves[p].received.Keys == was.Keys + uuids.Keys
      && forall u :: u in m2.slaves[p].received ==> m2.slaves[p].received[u] == if u in was then was[u] else uuids[u]
  {
    var m1 := ReceivedBy(m, Peer(p, record), uuids);
    CheckedSlaves(m1, uuids.Keys);
    hide Checked;
  }

  /** What this node is told is added to what it was told before, which stands. */
  lemma OwnReportIsRecorded(m: Master, uuids: Receipts)
    ensures var m2 := Apply(m, Received(ThisNode, uuids));
      && m2.ready.Keys <= m.ready.Keys + uuids.Keys
      && (!m.quorum.majority ==> m2.ready.Keys == m.ready.Keys + uuids.Keys)
      && forall u :: u in m2.ready ==> m2.ready[u] == if u in m.ready then m.ready[u] else uuids[u]
  {
    var m1 := ReceivedBy(m, ThisNode, uuids);
    assert m1.ready == Receive(m.ready, uuids);
    FirstReceiptStands(m.ready, uuids);
    CheckedReady(m1, uuids.Keys);
    ReportHandled(m, ThisNode, uuids);
    hide Apply, Checked, ReceivedBy, Receive;
  }

  lemma FirstReceiptStands(received: Receipts, uuids: Receipts)
    ensures var r := Receive(received, uuids);
      r.Keys == received.Keys + uuids.Keys && forall u :: u in r ==> r[u] == if u in received then received[u] else uuids[u]
  {
  }

  lemma CheckedReady(m: Master, uuids: set<Uuid>)
    ensures var m2 := Checked(m, uuids);
      m2.ready.Keys <= m.ready.Keys && forall u :: u in m2.ready ==> m2.ready[u] == m.ready[u]
  {
    ComputedFields(m, false);
    hide Computed, InQuorum;
    SubmittedFields(Computed(m, false), Peers(m.slaves), uuids);
    hide Submitted;
  }

  /** Exactly the cancelled transactions are forgotten, by the node that cancels them alone. */
  lemma CancelledIsForgotten(m: Master, node: Node, gone: set<Uuid>, u: Uuid, p: Name)
    ensures var m2 := Apply(m, Cancelled(node, gone));
      && m2.slaves.Keys == m.slaves.Keys && m2.jobs == m.jobs
      && (u in m2.ready <==> u in m.ready && !(node.ThisNode? && u in gone))
      && (u in m2.committing <==> u in m.committing && !(node.ThisNode? && u in gone))
      && (p in m.slaves ==>
          (u in m2.slaves[p].received
           <==> u in m.slaves[p].received
                && !(m.slaves[p].conn.Conn? && node == Peer(p, m.slaves[p].conn.record) && u in gone)))
  {
  }

  /** A cluster update leaves exactly the configured peers: new ones and lost ones without a connection, the others as they were. */
  lemma PeersAreReplaced(m: Master, names: set<Name>)
    ensures var m2 := Apply(m, ClusterUpdated(names));
      && m2.haveCluster && m2.slaves.Keys == names
      && forall p :: p in names ==>
        m2.slaves[p] == if p in m.slaves && !(m.slaves[p].conn.Conn? && !m.slaves[p].conn.peer && !m.slaves[p].conn.link)
                        then m.slaves[p] else Slave(NoConn, map[], NoSync, false)
  {
    var m1 := m.(slaves := Reconfigured(m.slaves, names), haveCluster := true);
    ComputedSlaves(m1, !m.haveCluster);
    ComputedFlags(m1, !m.haveCluster);
    hide Computed;
  }

  lemma ComputedFlags(m: Master, force: bool)
    ensures Computed(m, force).haveCluster == m.haveCluster
  {
  }

  /** A slave that joins starts over: its new connection has no receipts and it is out of sync; the others stay unless lost. */
  lemma JoiningStartsOver(m: Master, p: Name, record: nat, uuid: Uuid, q: Name)
    requires p in m.slaves && q in m.slaves
    ensures var m2 := Apply(m, PeerNewMaster(p, record, uuid));
      && m2.slaves.Keys == m.slaves.Keys
      && m2.slaves[p] == Slave(Conn(record, uuid, false, true), map[], NoSync, false)
      && (q == p || m2.slaves[q] == m.slaves[q]
          || (m2.slaves[q] == Slave(NoConn, map[], NoSync, false)
              && m.slaves[q].conn.Conn? && !m.slaves[q].conn.peer && !m.slaves[q].conn.link))
  {
    var m0 := m.(slaves := m.slaves[p := NEWSLAVE]);
    ComputedSlaves(m0, false);
    hide Computed;
  }

  // ------------------------------------------------------------ which slaves count

  /**
   The quorum is full exactly if every slave is connected and in sync, and has a
   majority exactly if at least half of them are.
   */
  lemma QuorumIs(slaves: Slaves)
    ensures QuorumOf(slaves).full
      <==> forall p :: p in slaves ==> slaves[p].conn.Conn? && (slaves[p].conn.peer || slaves[p].conn.link) && slaves[p].synced
    ensures QuorumOf(slaves).majority
      <==> 2 * |set p | p in slaves && slaves[p].conn.Conn? && (slaves[p].conn.peer || slaves[p].conn.link) && slaves[p].synced|
           >= |slaves|
  {
    var counted := set p | p in slaves && slaves[p].conn.Conn? && (slaves[p].conn.peer || slaves[p].conn.link)
                           && slaves[p].synced;
    assert counted == Peers(slaves) && |slaves.Keys| == |slaves|;
    SubsetSize(counted, slaves.Keys);
    if |counted| == |slaves.Keys| {
      SameSize(counted, slaves.Keys);
    }
    if slaves != map[] && QuorumOf(slaves).full {
      assert counted == slaves.Keys;
    }
    if forall p :: p in slaves ==> p in counted {
      assert counted == slaves.Keys;
    }
  }

  /** The slaves that are connected and in sync. */
  function InSync(slaves: Slaves): set<Name> {
    set p | p in slaves && slaves[p].conn.Conn? && (slaves[p].conn.peer || slaves[p].conn.link) && slaves[p].synced
  }

  /** The events after which the controller knows its quorum: some copy completes, or it computes the quorum in any case. */
  predicate Computes(m: Master, e: Event) {
    || e.ClusterUpdated? || e.CheckQuorum? || e.HandoffFailed?
    || (e.PeerNewMaster? && e.p in m.slaves)
    || (e.Received? && m.quorum.majority)
    || (e.CheckCopyCompleted? && exists p :: p in m.slaves && p in e.locked && m.slaves[p].sync.Syncing? && !m.slaves[p].sync.running)
  }

  /**
   After each of these events the quorum announced is false while a controller
   has yet to start, and otherwise full exactly if all slaves are in sync, with a
   majority exactly if at least half of them are.
   */
  lemma QuorumIsCurrent(m: Master, e: Event)
    requires Computes(m, e) && Apply(m, e).haveCluster
    ensures var m2 := Apply(m, e);
      if m2.held then m2.quorum == Quorum(false, false)
      else m2.quorum == Quorum(InSync(m2.slaves) == m2.slaves.Keys, 2 * |InSync(m2.slaves)| >= |m2.slaves|)
  {
    QuorumMatches(m, e);
    var m2 := Apply(m, e);
    hide Apply;
    QuorumIs(m2.slaves);
    hide QuorumOf;
    assert InSync(m2.slaves) == m2.slaves.Keys <==> forall p :: p in m2.slaves ==> p in InSync(m2.slaves);
  }

  lemma ComputedMatches(m: Master, force: bool)
    ensures var m2 := Computed(m, force); m2.quorum == Announced(m2.held, QuorumOf(m2.slaves)) && m2.haveCluster == m.haveCluster
  {
    PeersSurviveCleaning(m.slaves);
    ComputedFields(m, force);
    ComputedFlags(m, force);
    hide Computed;
  }

  lemma CheckedMatches(m: Master, uuids: set<Uuid>)
    ensures var m2 := Checked(m, uuids); m2.quorum == Announced(m2.held, QuorumOf(m2.slaves))
  {
    ComputedMatches(m, false);
    hide Computed;
    SubmittedFields(Computed(m, false), Peers(m.slaves), uuids);
    hide Submitted;
  }

  lemma JoinMatches(m: Master, p: Name, record: nat, uuid: Uuid)
    requires p in m.slaves && m.haveCluster
    ensures var m2 := Apply(m, PeerNewMaster(p, record, uuid)); m2.quorum == Announced(m2.held, QuorumOf(m2.slaves))
  {
    var m0 := m.(slaves := m.slaves[p := NEWSLAVE]);
    ComputedMatches(m0, false);
    ComputedSlaves(m0, false);
    var m1 := Computed(m0, false);
    hide Computed;
    assert m1.slaves[p] == NEWSLAVE;
    LinkingCounts(m1.slaves, p, Joined(record, uuid));
    assert QuorumOf(m1.slaves[p := Joined(record, uuid)]) == QuorumOf(m1.slaves) by {
      assert m1.slaves != map[] && m1.slaves[p := Joined(record, uuid)] != map[] by {
        assert p in m1.slaves && p in m1.slaves[p := Joined(record, uuid)];
      }
    }
  }

  lemma QuorumMatches(m: Master, e: Event)
    requires Computes(m, e) && Apply(m, e).haveCluster
    ensures var m2 := Apply(m, e); m2.quorum == Announced(m2.held, QuorumOf(m2.slaves))
  {
    hide Computed, Checked, ReceivedBy, Reconfigured, CompletedAll, QuorumOf, Announced;
    match e
    case ClusterUpdated(names) =>
      ComputedMatches(m.(slaves := Reconfigured(m.slaves, names), haveCluster := true), !m.haveCluster);
    case PeerNewMaster(p, record, uuid) =>
      ComputedFlags(m.(slaves := m.slaves[p := NEWSLAVE]), false);
      JoinMatches(m, p, record, uuid);
    case CheckCopyCompleted(locked) =>
      var p :| p in m.slaves && p in locked && m.slaves[p].sync.Syncing? && !m.slaves[p].sync.running;
      assert Completes(m.slaves[p], p in locked);
      ComputedFlags(m.(slaves := CompletedAll(m.slaves, locked)), false);
      ComputedMatches(m.(slaves := CompletedAll(m.slaves, locked)), false);
    case Received(node, uuids) => CheckedMatches(ReceivedBy(m, node, uuids), uuids.Keys);
    case CheckQuorum =>
      ComputedFlags(m, false);
      ComputedMatches(m, false);
    case HandoffFailed =>
      ComputedFlags(m.(commits := true), false);
      ComputedMatches(m.(commits := true), false);
  }

  /** A slave whose connection object and link are both gone is forgotten when the quorum is computed next. */
  lemma LossIsNoticed(m: Master, p: Name)
    requires m.haveCluster && p in m.slaves && m.slaves[p].conn.Conn?
    ensures var m2 := Apply(Apply(Apply(m, PeerGone(p)), LinkGone(p)), CheckQuorum);
      m2.slaves.Keys == m.slaves.Keys && m2.slaves[p] == Slave(NoConn, map[], NoSync, false)
  {
    var m1 := Apply(Apply(m, PeerGone(p)), LinkGone(p));
    assert m1.slaves.Keys == m.slaves.Keys && m1.haveCluster;
    assert m1.slaves[p].conn.Conn? && !m1.slaves[p].conn.peer && !m1.slaves[p].conn.link;
    ComputedSlaves(m1, false);
    hide Computed;
  }

  /** While a controller has yet to start there is no quorum, whatever slaves there are. */
  lemma HeldHasNoQuorum(m: Master)
    requires m.haveCluster
    ensures Apply(Apply(m, HeldChanged(true)), CheckQuorum).quorum == Quorum(false, false)
    ensures Apply(Apply(m, HeldChanged(false)), CheckQuorum).quorum
         == Quorum(InSync(m.slaves) == m.slaves.Keys, 2 * |InSync(m.slaves)| >= |m.slaves|)
  {
    ComputedFields(m.(held := true), false);
    ComputedFields(m.(held := false), false);
    hide Computed;
    QuorumIs(m.slaves);
    hide QuorumOf;
    assert InSync(m.slaves) == m.slaves.Keys <==> forall p :: p in m.slaves ==> p in InSync(m.slaves);
  }

  lemma HeldSubmitsNothing(m: Master, e: Event)
    requires !m.commits && !e.HandoffFailed?
    ensures Apply(m, e).jobs == m.jobs && !Apply(m, e).commits
  {
    hide Reconfigured, CompletedAll, ReceivedBy, Cleaned, QuorumOf, Announced, Completes;
    match e
    case Received(node, uuids) => ReceivedKeepsQuorum(m, node, uuids);
    case _ =>
  }

  lemma {:induction false} HeldAlong(m: Master, es: seq<Event>)
    requires !m.commits && forall i :: 0 <= i < |es| ==> !es[i].HandoffFailed?
    ensures After(m, es).jobs == m.jobs && !After(m, es).commits
    decreases |es|
  {
    hide Apply;
    if es != [] {
      HeldSubmitsNothing(m, es[0]);
      HeldAlong(Apply(m, es[0]), es[1..]);
    }
  }

  /** From the moment commits are held nothing is submitted until a handoff fails, whatever happens. */
  lemma NothingIsSubmittedWhileHeld(m: Master, es: seq<Event>)
    requires es != [] && es[0] == HoldCommits && forall i :: 0 <= i < |es| ==> !es[i].HandoffFailed?
    ensures After(m, es).jobs == m.jobs
  {
    assert Apply(m, es[0]).jobs == m.jobs && !Apply(m, es[0]).commits;
    hide Apply;
    HeldAlong(Apply(m, es[0]), es[1..]);
  }

  /** Not copied to, and out of sync. */
  predicate Fresh(s: Slave) {
    s.sync.NoSync? && !s.synced
  }

  /** The slave joins again, or is no longer configured. */
  predicate Restarts(e: Event, p: Name) {
    (e.PeerNewMaster? && e.p == p) || (e.ClusterUpdated? && p !in e.names)
  }

  /** A copy starts, ends and completes only by the event for it. */
  predicate SyncFollows(s: Slave, s2: Slave, e: Event, p: Name) {
    && (s2.sync.Syncing? ==> s.sync.Syncing? || (e.SyncSlave? && e.p == p && e.dstLive))
    && (s2.sync.Syncing? && !s2.sync.running ==> s.sync.Syncing? && (!s.sync.running || e == CopyEnded(p)))
    && (s2.sync.Syncing? && s2.sync.lockRequested ==> s.sync.Syncing? && (s.sync.lockRequested || !s2.sync.running))
    && (s2.synced ==> s.synced || (s.sync.Syncing? && (!s.sync.running || s.sync.lockRequested)
                                    && e.CheckCopyCompleted? && p in e.locked))
  }

  ghost predicate EntryOk(a: Slaves, b: Slaves, e: Event, p: Name) {
    p in b ==> Fresh(b[p]) || (p in a && !Restarts(e, p) && SyncFollows(a[p], b[p], e, p))
  }

  lemma CleanedEntry(a: Slaves, b: Slaves, e: Event, p: Name)
    requires EntryOk(a, b, e, p)
    ensures EntryOk(a, Cleaned(b), e, p)
  {
    assert p in b ==> Cleaned(b)[p] == b[p] || Cleaned(b)[p] == NEWSLAVE;
    hide Lost;
  }

  lemma JoinEntry(m: Master, q: Name, record: nat, uuid: Uuid, p: Name)
    ensures EntryOk(m.slaves, Apply(m, PeerNewMaster(q, record, uuid)).slaves, PeerNewMaster(q, record, uuid), p)
  {
    if q in m.slaves {
      var m0 := m.(slaves := m.slaves[q := NEWSLAVE]);
      ComputedSlaves(m0, false);
      hide Computed;
      CleanedEntry(m.slaves, m0.slaves, PeerNewMaster(q, record, uuid), p);
      hide Cleaned;
    }
  }

  lemma TableEntry(m: Master, e: Event, p: Name)
    requires e.ClusterUpdated? || e.CheckCopyCompleted?
    ensures EntryOk(m.slaves, Apply(m, e).slaves, e, p)
  {
    var t := if e.ClusterUpdated? then Reconfigured(m.slaves, e.names) else CompletedAll(m.slaves, e.locked);
    assert EntryOk(m.slaves, t, e, p);
    CleanedEntry(m.slaves, t, e, p);
    if e.ClusterUpdated? {
      ComputedSlaves(m.(slaves := t, haveCluster := true), !m.haveCluster);
    } else {
      ComputedSlaves(m.(slaves := t), false);
    }
    hide EntryOk, Computed, Cleaned, Reconfigured, CompletedAll, Completes;
  }

  lemma ReportEntry(m: Master, node: Node, uuids: Receipts, p: Name)
    ensures EntryOk(m.slaves, Apply(m, Received(node, uuids)).slaves, Received(node, uuids), p)
  {
    var m1 := ReceivedBy(m, node, uuids);
    ReceivedEntry(m, node, uuids, p);
    CleanedEntry(m.slaves, m1.slaves, Received(node, uuids), p);
    CheckedSlaves(m1, uuids.Keys);
    hide EntryOk, Checked, Cleaned, ReceivedBy;
  }

  lemma ReceivedEntry(m: Master, node: Node, uuids: Receipts, p: Name)
    ensures EntryOk(m.slaves, ReceivedBy(m, node, uuids).slaves, Received(node, uuids), p)
  {
  }

  lemma QuorumEntry(m: Master, e: Event, p: Name)
    requires e.CheckQuorum? || e.HandoffFailed?
    ensures EntryOk(m.slaves, Apply(m, e).slaves, e, p)
  {
    assert EntryOk(m.slaves, m.slaves, e, p);
    CleanedEntry(m.slaves, m.slaves, e, p);
    ComputedSlaves(m, false);
    ComputedSlaves(m.(commits := true), false);
    hide EntryOk, Computed, Cleaned;
  }

  lemma CopyEntry(m: Master, e: Event, p: Name)
    requires e.SyncSlave? || e.CopyEnded?
    ensures EntryOk(m.slaves, Apply(m, e).slaves, e, p)
  {
  }

  lemma ConnEntry(m: Master, e: Event, p: Name)
    requires e.Accepted? || e.PeerGone? || e.LinkGone?
    ensures EntryOk(m.slaves, Apply(m, e).slaves, e, p)
  {
    var b := Apply(m, e).slaves;
    assert p in b ==> p in m.slaves && b[p].sync == m.slaves[p].sync && b[p].synced == m.slaves[p].synced;
    hide Apply;
  }

  lemma OtherEntry(m: Master, e: Event, p: Name)
    requires e.Cancelled? || e.HoldCommits? || e.HeldChanged?
    ensures EntryOk(m.slaves, Apply(m, e).slaves, e, p)
  {
  }

  lemma EntryStep(m: Master, e: Event, p: Name)
    ensures EntryOk(m.slaves, Apply(m, e).slaves, e, p)
  {
    hide EntryOk, Apply;
    match e
    case ClusterUpdated(_) => TableEntry(m, e, p);
    case CheckCopyCompleted(_) => TableEntry(m, e, p);
    case PeerNewMaster(q, record, uuid) => JoinEntry(m, q, record, uuid, p);
    case Received(node, uuids) => ReportEntry(m, node, uuids, p);
    case CheckQuorum => QuorumEntry(m, e, p);
    case HandoffFailed => QuorumEntry(m, e, p);
    case SyncSlave(_, _, _) => CopyEntry(m, e, p);
    case CopyEnded(_) => CopyEntry(m, e, p);
    case Accepted(_) => ConnEntry(m, e, p);
    case PeerGone(_) => ConnEntry(m, e, p);
    case LinkGone(_) => ConnEntry(m, e, p);
    case _ => OtherEntry(m, e, p);
  }

  /** From the i-th event on a copy to p goes on, started by that event. */
  ghost predicate Begun(es: seq<Event>, p: Name, i: nat) {
    && i < |es| && es[i].SyncSlave? && es[i].p == p && es[i].dstLive
    && forall k :: i <= k < |es| ==> !Restarts(es[k], p)
  }

  ghost predicate Ended(es: seq<Event>, p: Name, i: nat, j: nat) {
    Begun(es, p, i) && i < j < |es| && es[j] == CopyEnded(p)
  }

  /** A copy to p was started, ended and completed, in this order, and p did not start over since. */
  ghost predicate Copied(es: seq<Event>, p: Name) {
    exists i: nat, j: nat, k: nat :: Ended(es, p, i, j) && j < k < |es| && es[k].CheckCopyCompleted? && p in es[k].locked
  }

  ghost predicate History(es: seq<Event>, m: Master, p: Name) {
    p in m.slaves ==>
      var s := m.slaves[p];
      && (s.sync.Syncing? ==> exists i: nat :: Begun(es, p, i))
      && (s.sync.Syncing? && (!s.sync.running || s.sync.lockRequested) ==> exists i: nat, j: nat :: Ended(es, p, i, j))
      && (s.synced ==> Copied(es, p))
  }

  lemma BegunMore(es: seq<Event>, e: Event, p: Name)
    requires !Restarts(e, p)
    ensures forall i :: Begun(es, p, i) ==> Begun(es + [e], p, i)
    ensures forall i, j :: Ended(es, p, i, j) ==> Ended(es + [e], p, i, j)
    ensures Copied(es, p) ==> Copied(es + [e], p)
  {
    var es2 := es + [e];
    assert forall k :: 0 <= k < |es| ==> es2[k] == es[k];
    hide Restarts;
    forall i | Begun(es, p, i)
      ensures Begun(es2, p, i)
    {
      assert es2[|es|] == e;
    }
    if i: nat, j: nat, k: nat :| Ended(es, p, i, j) && j < k < |es| && es[k].CheckCopyCompleted? && p in es[k].locked {
      assert Ended(es2, p, i, j) && es2[k] == es[k];
    }
  }

  lemma HistoryStep(es: seq<Event>, m: Master, e: Event, p: Name)
    requires History(es, m, p)
    ensures History(es + [e], Apply(m, e), p)
  {
    EntryStep(m, e, p);
    var m2, es2, n := Apply(m, e), es + [e], |es|;
    hide Apply;
    assert es2[n] == e;
    if p in m2.slaves && !Fresh(m2.slaves[p]) {
      BegunMore(es, e, p);
      var s, s2 := m.slaves[p], m2.slaves[p];
      hide Begun, Ended, Copied, Restarts;
      BegunNow(es, e, p);
      if s.sync.Syncing? && (!s.sync.running || s.sync.lockRequested) && s2.synced && !s.synced {
        var i: nat, j: nat :| Ended(es, p, i, j);
        CopiedNow(es, e, p, i, j);
      }
      if s2.sync.Syncing? && (!s2.sync.running || s2.sync.lockRequested) && s.sync.running && !s.sync.lockRequested {
        var i: nat :| Begun(es, p, i);
        EndedNow(es, e, p, i);
      }
    }
  }

  lemma BegunNow(es: seq<Event>, e: Event, p: Name)
    ensures e.SyncSlave? && e.p == p && e.dstLive ==> Begun(es + [e], p, |es|)
  {
    assert (es + [e])[|es|] == e;
  }

  lemma EndedNow(es: seq<Event>, e: Event, p: Name, i: nat)
    requires Begun(es, p, i)
    ensures e == CopyEnded(p) ==> Ended(es + [e], p, i, |es|)
  {
    if e == CopyEnded(p) {
      BegunMore(es, e, p);
      assert (es + [e])[|es|] == e;
    }
  }

  lemma CopiedNow(es: seq<Event>, e: Event, p: Name, i: nat, j: nat)
    requires Ended(es, p, i, j)
    ensures e.CheckCopyCompleted? && p in e.locked ==> Copied(es + [e], p)
  {
    if e.CheckCopyCompleted? && p in e.locked {
      BegunMore(es, e, p);
      assert (es + [e])[|es|] == e && Ended(es + [e], p, i, j);
    }
  }

  lemma {:induction false} HistoryAlong(before: seq<Event>, m: Master, es: seq<Event>, p: Name)
    requires History(before, m, p)
    ensures History(before + es, After(m, es), p)
    decreases |es|
  {
    hide Apply, History;
    if es == [] {
      assert before + es == before;
    } else {
      HistoryStep(before, m, es[0], p);
      HistoryAlong(before + [es[0]], Apply(m, es[0]), es[1..], p);
      assert before + [es[0]] + es[1..] == before + es;
    }
  }

  /**
   In every run a slave that counts was copied to: since it joined a copy to its
   live end was started, the copying thread ended, and then its completion was
   noticed with the commit lock held.
   */
  lemma CountedWasCopied(held: bool, es: seq<Event>, p: Name)
    ensures var m := After(Start(held), es);
      p in m.slaves && m.slaves[p].synced ==>
        exists i: nat, j: nat, k: nat :: Ended(es, p, i, j) && j < k < |es| && es[k].CheckCopyCompleted? && p in es[k].locked
  {
    HistoryAlong([], Start(held), es, p);
    assert [] + es == es;
    hide After, Ended;
  }

  /** A connected slave whose copying thread has ended is in sync once the commit lock is held, and otherwise waits for the lock. */
  lemma EndedCopyCompletes(m: Master, locked: set<Name>, p: Name)
    requires p in m.slaves && m.slaves[p].sync.Syncing? && !m.slaves[p].sync.running
    requires m.slaves[p].conn.Conn? && (m.slaves[p].conn.peer || m.slaves[p].conn.link)
    ensures var s, s2 := m.slaves[p], Apply(m, CheckCopyCompleted(locked)).slaves;
      p in s2 && s2[p] == if p in locked then s.(sync := NoSync, synced := true) else s.(sync := Syncing(false, true))
  {
    ComputedSlaves(m.(slaves := CompletedAll(m.slaves, locked)), false);
    hide Computed;
  }
}
