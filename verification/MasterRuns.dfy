/** What holds of a master controller whatever it is told, in whatever order. */
module MasterRuns {
  import opened Stores
  import opened MasterController

  function After(m: Master, es: seq<Event>): Master
    decreases |es|
  {
    if es == [] then m else After(Apply(m, es[0]), es[1..])
  }

  /** The transactions this node had received when e was handled. */
  function ReadyBefore(m: Master, e: Event): Receipts {
    if e.Received? && e.node.ThisNode? then Receive(m.ready, e.uuids) else m.ready
  }

  // ------------------------------------------------------------ every submission is safe

  /** The job was submitted rightly: m2 is the controller just after, ready what this node had received. */
  predicate Safe(m2: Master, ready: Receipts, j: Job) {
    && m2.quorum.majority && !m2.held && m2.commits
    && j.peers == Peers(m2.slaves) && (m2.slaves == map[] || |j.peers| >= (|m2.slaves| + 1) / 2)
    && j.uuid in ready && j.receipt.source == ready[j.uuid].source
    && j.uuid in m2.committing && j.uuid !in m2.ready
    && (forall p :: p in j.peers ==> j.uuid in m2.slaves[p].received)
    && (j.receipt.ok <==> (ready[j.uuid].ok && AllAgree(m2, j, ready[j.uuid].source)))
  }

  predicate AllAgree(m2: Master, j: Job, source: Name)
    requires j.peers <= m2.slaves.Keys && forall p :: p in j.peers ==> j.uuid in m2.slaves[p].received
  {
    forall p :: p in j.peers ==>
      m2.slaves[p].received[j.uuid].ok && m2.slaves[p].received[j.uuid].source == source
  }

  ghost predicate NewJobsSafe(jobs: multiset<Job>, m2: Master, ready: Receipts) {
    forall j :: m2.jobs[j] > jobs[j] ==> Safe(m2, ready, j)
  }

  /** What the submission asks of its context. */
  predicate InQuorum(m: Master, peers: set<Name>) {
    && m.quorum.majority && !m.held && peers == Peers(m.slaves)
    && (m.slaves == map[] || |peers| >= (|m.slaves| + 1) / 2)
  }

  lemma SubmittedIsSafe(m: Master, peers: set<Name>, uuids: set<Uuid>)
    requires InQuorum(m, peers)
    ensures NewJobsSafe(m.jobs, Submitted(m, peers, uuids), m.ready)
  {
    var m2 := Submitted(m, peers, uuids);
    var us := Eligible(m, peers, uuids);
    forall j | m2.jobs[j] > m.jobs[j]
      ensures Safe(m2, m.ready, j)
    {
      assert j in JobsOf(m, peers, us);
      var u :| u in us && u in m.ready && j == JobOf(m, peers, u);
      assert Everywhere(m, peers, u);
    }
  }

  lemma ComputedFields(m: Master, force: bool)
    ensures var m2 := Computed(m, force);
      && m2.slaves == Cleaned(m.slaves) && m2.held == m.held && m2.commits == m.commits
      && m2.quorum == Announced(m.held, QuorumOf(m.slaves))
      && (m2.quorum.majority ==> InQuorum(m2, Peers(m.slaves)))
      && m2.ready.Keys <= m.ready.Keys
      && forall u :: u in m2.ready ==> m2.ready[u] == m.ready[u]
  {
    PeersSurviveCleaning(m.slaves);
  }

  lemma ComputedIsSafe(m: Master, force: bool)
    ensures NewJobsSafe(m.jobs, Computed(m, force), m.ready)
  {
    var q := Announced(m.held, QuorumOf(m.slaves));
    var m1 := m.(slaves := Cleaned(m.slaves), quorum := q);
    PeersSurviveCleaning(m.slaves);
    if (q != m.quorum || force) && q.majority {
      SubmittedIsSafe(m1, Peers(m.slaves), m.ready.Keys);
    }
  }

  lemma SubmittedFields(m: Master, peers: set<Name>, uuids: set<Uuid>)
    ensures var m2 := Submitted(m, peers, uuids);
      && m2 == m.(ready := m2.ready, committing := m2.committing, jobs := m2.jobs)
      && m2.ready.Keys <= m.ready.Keys && m.committing <= m2.committing
      && forall u :: u in m2.ready ==> m2.ready[u] == m.ready[u]
  {
  }

  /** A job stays rightly submitted when more are submitted after it. */
  lemma SafeGrows(m1: Master, m2: Master, ready: Receipts, j: Job)
    requires Safe(m1, ready, j) && m2 == m1.(ready := m2.ready, committing := m2.committing, jobs := m2.jobs)
    requires m2.ready.Keys <= m1.ready.Keys && m1.committing <= m2.committing
    ensures Safe(m2, ready, j)
  {
  }

  lemma SafeFrom(m2: Master, few: Receipts, ready: Receipts, j: Job)
    requires Safe(m2, few, j) && few.Keys <= ready.Keys && forall u :: u in few ==> few[u] == ready[u]
    ensures Safe(m2, ready, j)
  {
  }

  lemma CheckedIsSafe(m: Master, uuids: set<Uuid>)
    ensures NewJobsSafe(m.jobs, Checked(m, uuids), m.ready)
  {
    var m1, m2 := Computed(m, false), Checked(m, uuids);
    ComputedFields(m, false);
    ComputedIsSafe(m, false);
    hide Computed, InQuorum, Submitted, Safe;
    if m1.quorum.majority {
      SubmittedIsSafe(m1, Peers(m.slaves), uuids);
      SubmittedFields(m1, Peers(m.slaves), uuids);
      forall j | m2.jobs[j] > m.jobs[j]
        ensures Safe(m2, m.ready, j)
      {
        if m1.jobs[j] > m.jobs[j] {
          SafeGrows(m1, m2, m.ready, j);
        } else {
          SafeFrom(m2, m1.ready, m.ready, j);
        }
      }
    }
  }

  lemma NoNewJobs(jobs: multiset<Job>, m2: Master, ready: Receipts)
    requires m2.jobs == jobs
    ensures NewJobsSafe(jobs, m2, ready)
  {
  }

  lemma ReceivedByFields(m: Master, node: Node, uuids: Receipts)
    ensures var m1 := ReceivedBy(m, node, uuids);
      m1.jobs == m.jobs && m1.ready == ReadyBefore(m, Received(node, uuids))
  {
  }

  /**
   Whatever the controller is told, a transaction it submits then was received
   by this node and by every slave it counts, the slaves it counts are a
   majority, and the job's status is good exactly when all of them report
   success from one source.
   */
  lemma EverySubmissionIsSafe(m: Master, e: Event)
    ensures NewJobsSafe(m.jobs, Apply(m, e), ReadyBefore(m, e))
  {
    hide NewJobsSafe, Computed, Checked, ReceivedBy, Reconfigured, CompletedAll, Completes;
    match e
    case ClusterUpdated(names) =>
      ComputedIsSafe(m.(slaves := Reconfigured(m.slaves, names), haveCluster := true), !m.haveCluster);
    case PeerNewMaster(p, record, uuid) =>
      NoNewJobs(m.jobs, m, m.ready);
      if p in m.slaves {
        JoiningIsSafe(m, p, record, uuid);
      }
    case CheckCopyCompleted(locked) =>
      var m1 := m.(slaves := CompletedAll(m.slaves, locked));
      NoNewJobs(m.jobs, m1, m.ready);
      ComputedIsSafe(m1, false);
    case Received(node, uuids) =>
      ReceivedByFields(m, node, uuids);
      NoNewJobs(m.jobs, ReceivedBy(m, node, uuids), ReadyBefore(m, e));
      CheckedIsSafe(ReceivedBy(m, node, uuids), uuids.Keys);
    case CheckQuorum =>
      NoNewJobs(m.jobs, m, m.ready);
      ComputedIsSafe(m, false);
    case HandoffFailed =>
      NoNewJobs(m.jobs, m.(commits := true), m.ready);
      ComputedIsSafe(m.(commits := true), false);
    case _ => NoNewJobs(m.jobs, Apply(m, e), m.ready);
  }

  lemma JoiningIsSafe(m: Master, p: Name, record: nat, uuid: Uuid)
    requires p in m.slaves
    ensures NewJobsSafe(m.jobs, Apply(m, PeerNewMaster(p, record, uuid)), m.ready)
  {
    var m0 := m.(slaves := m.slaves[p := NEWSLAVE]);
    var m1, m2 := ComputedIfKnown(m0, false), Apply(m, PeerNewMaster(p, record, uuid));
    ComputedIsSafe(m0, false);
    ComputedFields(m0, false);
    hide Computed, Safe;
    assert m1.slaves[p] == NEWSLAVE;
    forall j | m2.jobs[j] > m.jobs[j]
      ensures Safe(m2, m.ready, j)
    {
      assert Safe(m1, m.ready, j);
      LinkingKeepsSafe(m1, p, record, uuid, m.ready, j);
    }
  }

  lemma LinkingCounts(slaves: Slaves, p: Name, s: Slave)
    requires p in slaves && !Counted(slaves[p]) && !Counted(s)
    ensures Peers(slaves[p := s]) == Peers(slaves) && |slaves[p := s]| == |slaves|
    ensures p !in Peers(slaves)
  {
    assert slaves[p := s].Keys == slaves.Keys;
    assert |slaves[p := s]| == |slaves[p := s].Keys| && |slaves| == |slaves.Keys|;
    assert Peers(slaves[p := s]) == Peers(slaves);
  }

  lemma LinkingKeepsSafe(m1: Master, p: Name, record: nat, uuid: Uuid, ready: Receipts, j: Job)
    requires Safe(m1, ready, j) && p in m1.slaves && m1.slaves[p] == NEWSLAVE
    ensures Safe(m1.(slaves := m1.slaves[p := Joined(record, uuid)]), ready, j)
  {
    LinkingCounts(m1.slaves, p, Joined(record, uuid));
    hide Peers;
  }

  // ------------------------------------------------------------ receipts are those of the current connection

  /** Some report in es of p over the connection with this record says r of u. */
  ghost predicate Reported(es: seq<Event>, p: Name, record: nat, u: Uuid, r: Receipt) {
    exists i :: 0 <= i < |es| && IsReport(es[i], p, record, u, r)
  }

  predicate IsReport(e: Event, p: Name, record: nat, u: Uuid, r: Receipt) {
    e.Received? && e.node == Peer(p, record) && u in e.uuids && e.uuids[u] == r
  }

  ghost predicate Current(es: seq<Event>, m: Master, p: Name, u: Uuid) {
    p in m.slaves && u in m.slaves[p].received ==>
      m.slaves[p].conn.Conn? && Reported(es, p, m.slaves[p].conn.record, u, m.slaves[p].received[u])
  }

  predicate SameRecord(a: Conn, b: Conn) {
    a.Conn? == b.Conn? && (a.Conn? ==> a.record == b.record)
  }

  /** A receipt in the new table was there before, for the same connection, or e reports it over the connection. */
  predicate Follows(a: Slaves, b: Slaves, e: Event, p: Name, u: Uuid) {
    p in b && u in b[p].received ==>
      || (p in a && SameRecord(a[p].conn, b[p].conn) && u in a[p].received && b[p].received[u] == a[p].received[u])
      || (b[p].conn.Conn? && IsReport(e, p, b[p].conn.record, u, b[p].received[u]))
  }

  lemma ComputedSlaves(m: Master, force: bool)
    ensures Computed(m, force).slaves == Cleaned(m.slaves)
  {
  }

  lemma CheckedSlaves(m: Master, uuids: set<Uuid>)
    ensures Checked(m, uuids).slaves == Cleaned(m.slaves)
  {
    ComputedSlaves(m, false);
    hide Computed;
    SubmittedFields(Computed(m, false), Peers(m.slaves), uuids);
    hide Submitted;
  }

  /** Forgetting lost slaves afterwards adds no receipts. */
  lemma FollowsCleaned(a: Slaves, b: Slaves, e: Event, p: Name, u: Uuid)
    requires Follows(a, b, e, p, u)
    ensures Follows(a, Cleaned(b), e, p, u)
  {
    assert p in Cleaned(b) && u in Cleaned(b)[p].received ==> Cleaned(b)[p] == b[p];
    hide Lost;
  }

  lemma JoinFollows(m: Master, q: Name, record: nat, uuid: Uuid, p: Name, u: Uuid)
    ensures Follows(m.slaves, Apply(m, PeerNewMaster(q, record, uuid)).slaves, PeerNewMaster(q, record, uuid), p, u)
  {
    var e := PeerNewMaster(q, record, uuid);
    if q in m.slaves {
      var m0 := m.(slaves := m.slaves[q := NEWSLAVE]);
      FollowsCleaned(m.slaves, m0.slaves, e, p, u);
      ComputedSlaves(m0, false);
      hide Computed, Cleaned;
      assert Apply(m, e).slaves == ComputedIfKnown(m0, false).slaves[q := Joined(record, uuid)];
    }
  }

  lemma ReceivedByFollows(m: Master, node: Node, uuids: Receipts, p: Name, u: Uuid)
    ensures Follows(m.slaves, ReceivedBy(m, node, uuids).slaves, Received(node, uuids), p, u)
  {
  }

  lemma ReportFollows(m: Master, node: Node, uuids: Receipts, p: Name, u: Uuid)
    ensures Follows(m.slaves, Apply(m, Received(node, uuids)).slaves, Received(node, uuids), p, u)
  {
    var m1 := ReceivedBy(m, node, uuids);
    hide Follows, Checked, ReceivedBy, Cleaned;
    ReceivedByFollows(m, node, uuids, p, u);
    FollowsCleaned(m.slaves, m1.slaves, Received(node, uuids), p, u);
    CheckedSlaves(m1, uuids.Keys);
  }

  lemma TableFollows(m: Master, e: Event, p: Name, u: Uuid)
    requires e.ClusterUpdated? || e.CheckCopyCompleted?
    ensures Follows(m.slaves, Apply(m, e).slaves, e, p, u)
  {
    var t := if e.ClusterUpdated? then Reconfigured(m.slaves, e.names) else CompletedAll(m.slaves, e.locked);
    assert Follows(m.slaves, t, e, p, u);
    FollowsCleaned(m.slaves, t, e, p, u);
    if e.ClusterUpdated? {
      ComputedSlaves(m.(slaves := t, haveCluster := true), !m.haveCluster);
    } else {
      ComputedSlaves(m.(slaves := t), false);
    }
    hide Follows, Computed, Cleaned, Reconfigured, CompletedAll, Completes;
  }

  lemma QuorumFollows(m: Master, e: Event, p: Name, u: Uuid)
    requires e.CheckQuorum? || e.HandoffFailed?
    ensures Follows(m.slaves, Apply(m, e).slaves, e, p, u)
  {
    assert Follows(m.slaves, m.slaves, e, p, u);
    FollowsCleaned(m.slaves, m.slaves, e, p, u);
    ComputedSlaves(m, false);
    ComputedSlaves(m.(commits := true), false);
    hide Follows, Computed, Cleaned;
  }

  predicate OneEntry(e: Event) {
    !e.ClusterUpdated? && !e.CheckCopyCompleted? && !e.PeerNewMaster? && !e.Received? && !e.CheckQuorum? && !e.HandoffFailed?
  }

  /** The receipts of one are among the other's, for the same connection. */
  predicate Fewer(s: Slave, s2: Slave) {
    && SameRecord(s.conn, s2.conn)
    && forall u :: u in s2.received ==> u in s.received && s2.received[u] == s.received[u]
  }

  lemma UpdateFollows(a: Slaves, q: Name, s2: Slave, e: Event, p: Name, u: Uuid)
    requires q in a && Fewer(a[q], s2)
    ensures Follows(a, a[q := s2], e, p, u)
  {
  }

  lemma SameFollows(a: Slaves, e: Event, p: Name, u: Uuid)
    ensures Follows(a, a, e, p, u)
  {
  }

  /** The slave whose entry alone e is about, if it is about one. */
  function About(e: Event): Option<Name> {
    match e
    case Accepted(q) => Some(q)
    case SyncSlave(q, _, _) => Some(q)
    case Cancelled(node, _) => if node.Peer? then Some(node.name) else None
    case PeerGone(q) => Some(q)
    case LinkGone(q) => Some(q)
    case CopyEnded(q) => Some(q)
    case _ => None
  }

  /** At most the one entry changes, and gains no receipts. */
  predicate OneChange(a: Slaves, b: Slaves, about: Option<Name>) {
    b == a || (about.Some? && about.value in a && about.value in b
               && b == a[about.value := b[about.value]] && Fewer(a[about.value], b[about.value]))
  }

  lemma ConnChanges(m: Master, e: Event)
    requires e.Accepted? || e.PeerGone? || e.LinkGone?
    ensures OneChange(m.slaves, Apply(m, e).slaves, About(e))
  {
  }

  lemma OneEntryChanges(m: Master, e: Event)
    requires OneEntry(e)
    ensures OneChange(m.slaves, Apply(m, e).slaves, About(e))
  {
    if e.Accepted? || e.PeerGone? || e.LinkGone? {
      ConnChanges(m, e);
      hide Apply, OneChange, About, OneEntry;
    }
  }

  lemma OneEntryFollows(m: Master, e: Event, p: Name, u: Uuid)
    requires OneEntry(e)
    ensures Follows(m.slaves, Apply(m, e).slaves, e, p, u)
  {
    OneEntryChanges(m, e);
    hide Follows, Apply, About, Fewer;
    var b := Apply(m, e).slaves;
    if b == m.slaves {
      SameFollows(m.slaves, e, p, u);
    } else {
      UpdateFollows(m.slaves, About(e).value, b[About(e).value], e, p, u);
    }
  }

  /** Only a report of a slave's current connection adds to its receipts. */
  lemma EntryFollows(m: Master, e: Event, p: Name, u: Uuid)
    ensures Follows(m.slaves, Apply(m, e).slaves, e, p, u)
  {
    hide Follows, Apply;
    match e
    case ClusterUpdated(_) => TableFollows(m, e, p, u);
    case CheckCopyCompleted(_) => TableFollows(m, e, p, u);
    case PeerNewMaster(q, record, uuid) => JoinFollows(m, q, record, uuid, p, u);
    case Received(node, uuids) => ReportFollows(m, node, uuids, p, u);
    case CheckQuorum => QuorumFollows(m, e, p, u);
    case HandoffFailed => QuorumFollows(m, e, p, u);
    case _ => OneEntryFollows(m, e, p, u);
  }

  lemma ReportedMore(es: seq<Event>, e: Event, p: Name, record: nat, u: Uuid, r: Receipt)
    requires Reported(es, p, record, u, r) || IsReport(e, p, record, u, r)
    ensures Reported(es + [e], p, record, u, r)
  {
    if Reported(es, p, record, u, r) {
      var i :| 0 <= i < |es| && IsReport(es[i], p, record, u, r);
      assert (es + [e])[i] == es[i];
    } else {
      assert (es + [e])[|es|] == e;
    }
  }

  lemma {:induction false} CurrentAlong(before: seq<Event>, m: Master, es: seq<Event>, p: Name, u: Uuid)
    requires Current(before, m, p, u)
    ensures Current(before + es, After(m, es), p, u)
    decreases |es|
  {
    hide Apply;
    if es == [] {
      assert before + es == before;
    } else {
      var m1 := Apply(m, es[0]);
      EntryFollows(m, es[0], p, u);
      if p in m1.slaves && u in m1.slaves[p].received {
        ReportedMore(before, es[0], p, m1.slaves[p].conn.record, u, m1.slaves[p].received[u]);
      }
      CurrentAlong(before + [es[0]], m1, es[1..], p, u);
      assert before + [es[0]] + es[1..] == before + es;
    }
  }

  /**
   In every run, what a slave counts as having received was reported over the
   connection it has now, whatever former connections of it reported.
   */
  lemma ReceiptsAreCurrent(held: bool, es: seq<Event>, p: Name, u: Uuid)
    ensures var m := After(Start(held), es);
      p in m.slaves && u in m.slaves[p].received ==>
        m.slaves[p].conn.Conn? && Reported(es, p, m.slaves[p].conn.record, u, m.slaves[p].received[u])
  {
    CurrentAlong([], Start(held), es, p, u);
    assert [] + es == es;
  }

  // ------------------------------------------------------------ nothing is submitted twice

  /** This node is told of each transaction at most once, and of none in seen. */
  predicate ReceivesOnce(es: seq<Event>, seen: set<Uuid>)
    decreases |es|
  {
    es == [] ||
    (if es[0].Received? && es[0].node.ThisNode?
     then es[0].uuids.Keys !! seen && ReceivesOnce(es[1..], seen + es[0].uuids.Keys)
     else ReceivesOnce(es[1..], seen))
  }

  /** Every transaction was submitted at most once, and none of those submitted is still waiting. */
  ghost predicate OnceOnly(m: Master) {
    && (forall j :: j in m.jobs ==> m.jobs[j] == 1 && j.uuid !in m.ready)
    && (forall j1, j2 :: j1 in m.jobs && j2 in m.jobs && j1.uuid == j2.uuid ==> j1 == j2)
    && m.ready.Keys !! m.committing
  }

  ghost predicate OnceInv(m: Master, seen: set<Uuid>) {
    && OnceOnly(m) && m.ready.Keys <= seen
    && (forall j :: j in m.jobs ==> j.uuid in seen)
    && m.committing <= seen
  }

  lemma SubmittedOnce(m: Master, peers: set<Name>, uuids: set<Uuid>, seen: set<Uuid>)
    requires OnceInv(m, seen)
    ensures OnceInv(Submitted(m, peers, uuids), seen)
  {
    if m.commits {
      var us := Eligible(m, peers, uuids);
      var added := JobsOf(m, peers, us);
      forall j | j in added
        ensures j.uuid in m.ready && j.uuid in us && j !in m.jobs && j == JobOf(m, peers, j.uuid)
      {
        var u :| u in us && u in m.ready && j == JobOf(m, peers, u);
      }
      hide JobsOf, JobOf, Everywhere;
      var m2 := Submitted(m, peers, uuids);
      forall j | j in m2.jobs
        ensures m2.jobs[j] == 1 && j.uuid !in m2.ready && j.uuid in seen
      {
        assert j in m.jobs || j in added;
      }
    }
  }

  lemma ComputedOnce(m: Master, force: bool, seen: set<Uuid>)
    requires OnceInv(m, seen)
    ensures OnceInv(Computed(m, force), seen)
  {
    hide Submitted;
    var m1 := m.(slaves := Cleaned(m.slaves), quorum := Announced(m.held, QuorumOf(m.slaves)));
    SubmittedOnce(m1, Peers(m.slaves), m.ready.Keys, seen);
  }

  lemma CheckedOnce(m: Master, uuids: set<Uuid>, seen: set<Uuid>)
    requires OnceInv(m, seen)
    ensures OnceInv(Checked(m, uuids), seen)
  {
    hide Submitted, Computed, OnceInv;
    ComputedOnce(m, false, seen);
    SubmittedOnce(Computed(m, false), Peers(m.slaves), uuids, seen);
  }

  /** The transactions that have a job. */
  function JobUuids(m: Master): set<Uuid> {
    set j | j in m.jobs :: j.uuid
  }

  lemma ReceivedOnce(m: Master, node: Node, uuids: Receipts, seen: set<Uuid>)
    requires OnceInv(m, seen) && (node.ThisNode? ==> uuids.Keys !! JobUuids(m) + m.committing)
    ensures OnceInv(ReceivedBy(m, node, uuids), if node.ThisNode? then seen + uuids.Keys else seen)
  {
    assert forall j :: j in m.jobs ==> j.uuid in JobUuids(m);
  }

  lemma OnceFrame(m: Master, m2: Master, seen: set<Uuid>)
    requires OnceInv(m, seen) && m2.jobs == m.jobs
    requires m2.ready.Keys <= m.ready.Keys && m2.committing <= m.committing
    ensures OnceInv(m2, seen)
  {
  }

  lemma StepOnce(m: Master, e: Event, seen: set<Uuid>) returns (seen2: set<Uuid>)
    requires OnceInv(m, seen)
    requires e.Received? && e.node.ThisNode? ==> e.uuids.Keys !! JobUuids(m) + m.committing
    ensures OnceInv(Apply(m, e), seen2)
    ensures seen2 == if e.Received? && e.node.ThisNode? then seen + e.uuids.Keys else seen
  {
    seen2 := seen;
    hide OnceInv, Computed, Checked, ReceivedBy, Reconfigured, CompletedAll, Completes;
    match e
    case ClusterUpdated(names) =>
      var m1 := m.(slaves := Reconfigured(m.slaves, names), haveCluster := true);
      OnceFrame(m, m1, seen);
      ComputedOnce(m1, !m.haveCluster, seen);
    case PeerNewMaster(p, record, uuid) =>
      if p in m.slaves {
        var m0 := m.(slaves := m.slaves[p := NEWSLAVE]);
        OnceFrame(m, m0, seen);
        ComputedOnce(m0, false, seen);
        OnceFrame(ComputedIfKnown(m0, false), Apply(m, e), seen);
      }
    case CheckCopyCompleted(locked) =>
      var m1 := m.(slaves := CompletedAll(m.slaves, locked));
      OnceFrame(m, m1, seen);
      ComputedOnce(m1, false, seen);
    case Received(node, uuids) =>
      seen2 := if node.ThisNode? then seen + uuids.Keys else seen;
      ReceivedOnce(m, node, uuids, seen);
      CheckedOnce(ReceivedBy(m, node, uuids), uuids.Keys, seen2);
    case CheckQuorum => ComputedOnce(m, false, seen);
    case HandoffFailed =>
      OnceFrame(m, m.(commits := true), seen);
      ComputedOnce(m.(commits := true), false, seen);
    case _ => OnceFrame(m, Apply(m, e), seen);
  }

  // ------------------------------------------------------------ jobs only ever come

  /** Every transaction being committed has a job. */
  predicate Backed(m: Master) {
    m.committing <= JobUuids(m)
  }

  predicate Grows(m: Master, m2: Master) {
    m.jobs <= m2.jobs && (Backed(m) ==> Backed(m2))
  }

  lemma SubmittedGrows(m: Master, peers: set<Name>, uuids: set<Uuid>)
    ensures Grows(m, Submitted(m, peers, uuids))
  {
    if m.commits && Backed(m) {
      var m2, us := Submitted(m, peers, uuids), Eligible(m, peers, uuids);
      forall u | u in m2.committing
        ensures u in JobUuids(m2)
      {
        if u in us {
          assert JobOf(m, peers, u) in JobsOf(m, peers, us);
          assert JobOf(m, peers, u) in m2.jobs;
        } else {
          var j :| j in m.jobs && j.uuid == u;
          assert j in m2.jobs;
        }
      }
    }
  }

  lemma ComputedGrows(m: Master, force: bool)
    ensures Grows(m, Computed(m, force))
  {
    hide Submitted;
    var m1 := m.(slaves := Cleaned(m.slaves), quorum := Announced(m.held, QuorumOf(m.slaves)));
    SubmittedGrows(m1, Peers(m.slaves), m.ready.Keys);
  }

  lemma CheckedGrows(m: Master, uuids: set<Uuid>)
    ensures Grows(m, Checked(m, uuids))
  {
    hide Submitted, Computed, Backed;
    ComputedGrows(m, false);
    SubmittedGrows(Computed(m, false), Peers(m.slaves), uuids);
  }

  lemma GrowsFrame(m: Master, m2: Master)
    requires m2.jobs == m.jobs && m2.committing <= m.committing
    ensures Grows(m, m2)
  {
  }

  lemma StepGrows(m: Master, e: Event)
    ensures Grows(m, Apply(m, e))
  {
    hide Backed, Computed, Checked, ReceivedBy, Reconfigured, CompletedAll, Completes;
    match e
    case ClusterUpdated(names) =>
      var m1 := m.(slaves := Reconfigured(m.slaves, names), haveCluster := true);
      GrowsFrame(m, m1);
      ComputedGrows(m1, !m.haveCluster);
    case PeerNewMaster(p, record, uuid) =>
      GrowsFrame(m, m);
      if p in m.slaves {
        var m0 := m.(slaves := m.slaves[p := NEWSLAVE]);
        GrowsFrame(m, m0);
        ComputedGrows(m0, false);
        GrowsFrame(ComputedIfKnown(m0, false), Apply(m, e));
      }
    case CheckCopyCompleted(locked) =>
      var m1 := m.(slaves := CompletedAll(m.slaves, locked));
      GrowsFrame(m, m1);
      ComputedGrows(m1, false);
    case Received(node, uuids) =>
      ReceivedGrows(m, node, uuids);
      CheckedGrows(ReceivedBy(m, node, uuids), uuids.Keys);
    case CheckQuorum =>
      GrowsFrame(m, m);
      ComputedGrows(m, false);
    case HandoffFailed =>
      GrowsFrame(m, m.(commits := true));
      ComputedGrows(m.(commits := true), false);
    case _ => GrowsFrame(m, Apply(m, e));
  }

  lemma ReceivedGrows(m: Master, node: Node, uuids: Receipts)
    ensures Grows(m, ReceivedBy(m, node, uuids))
  {
  }

  // ------------------------------------------------------------ exactly when nothing is submitted twice

  /** This node is told of a transaction that already has a job. */
  predicate TellsOfJob(m: Master, e: Event) {
    e.Received? && e.node.ThisNode? && exists j :: j in m.jobs && j.uuid in e.uuids
  }

  /** A transaction with a job waits to be submitted, or has been submitted, again. */
  predicate Again(m: Master, j: Job) {
    j in m.jobs && (j.uuid in m.ready || m.jobs[j] >= 2 || exists j2 :: j2 in m.jobs && j2 != j && j2.uuid == j.uuid)
  }

  lemma SubmittedAgain(m: Master, peers: set<Name>, uuids: set<Uuid>, j: Job)
    requires Again(m, j)
    ensures Again(Submitted(m, peers, uuids), j)
  {
    var m2 := Submitted(m, peers, uuids);
    var us := Eligible(m, peers, uuids);
    if m.commits && j.uuid in m.ready && j.uuid in us {
      var j2 := JobOf(m, peers, j.uuid);
      assert j2 in JobsOf(m, peers, us);
      assert j2 in m2.jobs;
    } else if j2 :| j2 in m.jobs && j2 != j && j2.uuid == j.uuid {
      assert j2 in m2.jobs;
    }
  }

  lemma ComputedAgain(m: Master, force: bool, j: Job)
    requires Again(m, j)
    ensures Again(Computed(m, force), j)
  {
    hide Submitted;
    var m1 := m.(slaves := Cleaned(m.slaves), quorum := Announced(m.held, QuorumOf(m.slaves)));
    SubmittedAgain(m1, Peers(m.slaves), m.ready.Keys, j);
  }

  lemma ToldAgain(m: Master, uuids: Receipts, j: Job)
    requires j in m.jobs && j.uuid in uuids
    ensures Again(Apply(m, Received(ThisNode, uuids)), j)
  {
    var m1 := ReceivedBy(m, ThisNode, uuids);
    assert Again(m1, j);
    hide Submitted, Computed, Again;
    ComputedAgain(m1, false, j);
    SubmittedAgain(Computed(m1, false), Peers(m1.slaves), uuids.Keys, j);
    hide ReceivedBy;
  }

  /** One event keeps all submissions unrepeated exactly unless it tells of a transaction that has a job. */
  lemma StepOnceIff(m: Master, e: Event)
    requires OnceOnly(m) && Backed(m)
    ensures OnceOnly(Apply(m, e)) <==> !TellsOfJob(m, e)
  {
    if TellsOfJob(m, e) {
      var j :| j in m.jobs && j.uuid in e.uuids;
      ToldAgain(m, e.uuids, j);
      hide Apply;
    } else {
      var seen := m.ready.Keys + m.committing + JobUuids(m);
      hide Apply;
      var seen2 := StepOnce(m, e, seen);
    }
  }

  lemma {:induction false} AfterGrows(m: Master, es: seq<Event>)
    requires Backed(m)
    ensures Backed(After(m, es))
    decreases |es|
  {
    hide Apply, Backed;
    if es != [] {
      StepGrows(m, es[0]);
      AfterGrows(Apply(m, es[0]), es[1..]);
    }
  }

  lemma {:induction false} AfterAppend(m: Master, es: seq<Event>, e: Event)
    ensures After(m, es + [e]) == Apply(After(m, es), e)
    decreases |es|
  {
    hide Apply;
    if es == [] {
      assert (es + [e])[1..] == [];
      assert After(Apply(m, e), []) == Apply(m, e);
    } else {
      assert (es + [e])[1..] == es[1..] + [e];
      AfterAppend(Apply(m, es[0]), es[1..], e);
    }
  }

  /**
   In any state of any run in which nothing was submitted twice, the next event
   keeps it so if and only if it does not tell this node of a transaction that
   already has a job. Being told again of one that still waits does no harm.
   */
  lemma NextSubmittedOnceIff(held: bool, es: seq<Event>, e: Event)
    requires OnceOnly(After(Start(held), es))
    ensures OnceOnly(After(Start(held), es + [e])) <==> !TellsOfJob(After(Start(held), es), e)
  {
    AfterGrows(Start(held), es);
    AfterAppend(Start(held), es, e);
    StepOnceIff(After(Start(held), es), e);
    hide Apply, OnceOnly, TellsOfJob;
  }

  /** In every state of the run nothing was submitted twice. */
  ghost predicate AlwaysOnce(m: Master, es: seq<Event>)
    decreases |es|
  {
    OnceOnly(m) && (es == [] || AlwaysOnce(Apply(m, es[0]), es[1..]))
  }

  predicate NeverToldOfJob(m: Master, es: seq<Event>)
    decreases |es|
  {
    es == [] || (!TellsOfJob(m, es[0]) && NeverToldOfJob(Apply(m, es[0]), es[1..]))
  }

  lemma {:induction false} OnceAlongIff(m: Master, es: seq<Event>)
    requires OnceOnly(m) && Backed(m)
    ensures AlwaysOnce(m, es) <==> NeverToldOfJob(m, es)
    decreases |es|
  {
    hide Apply, OnceOnly, Backed, TellsOfJob;
    if es != [] {
      StepOnceIff(m, es[0]);
      StepGrows(m, es[0]);
      if OnceOnly(Apply(m, es[0])) {
        OnceAlongIff(Apply(m, es[0]), es[1..]);
      }
    }
  }

  /**
   Over a whole run nothing is ever submitted twice, and no transaction that
   has a job waits again, if and only if this node is never told of a
   transaction that has a job at that moment.
   */
  lemma NothingTwiceIff(held: bool, es: seq<Event>)
    ensures AlwaysOnce(Start(held), es) <==> NeverToldOfJob(Start(held), es)
  {
    OnceAlongIff(Start(held), es);
  }

  /** Told of each transaction once, this node is never told of one that has a job. */
  lemma {:induction false} OnceIsNeverAgain(m: Master, es: seq<Event>, seen: set<Uuid>)
    requires OnceInv(m, seen) && ReceivesOnce(es, seen)
    ensures NeverToldOfJob(m, es)
    decreases |es|
  {
    hide Apply;
    if es != [] {
      var seen2 := StepOnce(m, es[0], seen);
      OnceIsNeverAgain(Apply(m, es[0]), es[1..], seen2);
    }
  }

  lemma {:induction false} AlwaysAtTheEnd(m: Master, es: seq<Event>)
    requires AlwaysOnce(m, es)
    ensures OnceOnly(After(m, es))
    decreases |es|
  {
    hide Apply, OnceOnly;
    if es != [] {
      AlwaysAtTheEnd(Apply(m, es[0]), es[1..]);
    }
  }

  /**
   If this node is told of each transaction once, then in every run no
   transaction is submitted twice, and none is both waiting and being committed.
   */
  lemma NothingIsSubmittedTwice(held: bool, es: seq<Event>)
    requires ReceivesOnce(es, {})
    ensures OnceOnly(After(Start(held), es))
  {
    OnceIsNeverAgain(Start(held), es, {});
    NothingTwiceIff(held, es);
    AlwaysAtTheEnd(Start(held), es);
  }

  /** A controller without peers, in quorum, with nothing waiting. */
  function Lonely(jobs: multiset<Job>, committing: set<Uuid>): Master {
    Master(map[], map[], committing, Quorum(true, true), true, jobs, true, false)
  }

  /** A node without peers that is told of a transaction twice submits it twice. */
  lemma ToldTwiceSubmitsTwice(u: Uuid, r: Receipt)
    ensures After(Start(false), [ClusterUpdated({}), Received(ThisNode, map[u := r]), Received(ThisNode, map[u := r])]).jobs
         == multiset{Job(u, r, {}), Job(u, r, {})}
  {
    hide Apply, After, Start;
    var told, job := Received(ThisNode, map[u := r]), multiset{Job(u, r, {})};
    AfterThree(Start(false), ClusterUpdated({}), told, told);
    LonelyStarts();
    LonelySubmits(multiset{}, {}, u, r);
    LonelySubmits(multiset{} + job, {} + {u}, u, r);
    assert multiset{} + job + job == multiset{Job(u, r, {}), Job(u, r, {})};
  }

  lemma AfterThree(m: Master, a: Event, b: Event, c: Event)
    ensures After(m, [a, b, c]) == Apply(Apply(Apply(m, a), b), c)
  {
    hide Apply;
    assert [a, b, c][1..] == [b, c] && [b, c][1..] == [c] && [c][1..] == [];
    assert After(Apply(Apply(m, a), b), [c]) == Apply(Apply(Apply(m, a), b), c);
    assert After(Apply(m, a), [b, c]) == After(Apply(Apply(m, a), b), [c]);
  }

  lemma LonelyStarts()
    ensures Apply(Start(false), ClusterUpdated({})) == Lonely(multiset{}, {})
  {
    assert Reconfigured(map[], {}) == map[] && Cleaned(map[]) == map[] && Peers(map[]) == {};
    assert Eligible(Start(false), {}, {}) == {} && JobsOf(Start(false), {}, {}) == {};
    var m1 := Start(false).(haveCluster := true, quorum := Quorum(true, true));
    assert Submitted(m1, {}, {}) == m1 by {
      assert Eligible(m1, {}, {}) == {} && JobsOf(m1, {}, {}) == {};
    }
  }

  lemma LonelySubmits(jobs: multiset<Job>, committing: set<Uuid>, u: Uuid, r: Receipt)
    ensures Apply(Lonely(jobs, committing), Received(ThisNode, map[u := r]))
         == Lonely(jobs + multiset{Job(u, r, {})}, committing + {u})
  {
    var m := Lonely(jobs, committing);
    var m1 := ReceivedBy(m, ThisNode, map[u := r]);
    assert m1 == m.(ready := map[u := r]) by {
      assert Receive(map[], map[u := r]) == map[u := r];
    }
    LonelyComputes(m1);
    LonelyCommits(m1, u, r);
    hide Computed, Submitted, ReceivedBy;
    assert (map[u := r]).Keys == {u};
    assert Apply(m, Received(ThisNode, map[u := r])) == Checked(m1, {u});
  }

  lemma LonelyComputes(m: Master)
    requires m.slaves == map[] && m.quorum == Quorum(true, true) && !m.held
    ensures Computed(m, false) == m && Peers(m.slaves) == {}
  {
    assert Cleaned(map[]) == map[];
    assert Peers(map[]) == {};
  }

  lemma LonelyCommits(m: Master, u: Uuid, r: Receipt)
    requires m.commits && m.ready == map[u := r]
    ensures Submitted(m, {}, {u})
         == m.(ready := map[], committing := m.committing + {u}, jobs := m.jobs + multiset{Job(u, r, {})})
  {
    assert Eligible(m, {}, {u}) == {u};
    assert JobOf(m, {}, u) == Job(u, r, {});
    assert JobsOf(m, {}, {u}) == {Job(u, r, {})};
    assert m.ready - {u} == map[];
  }

  // ------------------------------------------------------------ what is left waiting

  /** The received transactions that could be committed now. */
  function Waiting(m: Master): set<Uuid> {
    Eligible(m, Peers(m.slaves), m.ready.Keys)
  }

  lemma WaitingCleaned(m: Master)
    ensures Waiting(m.(slaves := Cleaned(m.slaves))) == Waiting(m)
  {
    PeersSurviveCleaning(m.slaves);
    var m1 := m.(slaves := Cleaned(m.slaves));
    forall u
      ensures Everywhere(m1, Peers(m.slaves), u) <==> Everywhere(m, Peers(m.slaves), u)
    {
    }
  }

  lemma WaitingSubmitted(m: Master)
    requires m.commits
    ensures Waiting(Submitted(m, Peers(m.slaves), m.ready.Keys)) == {}
  {
    var m2 := Submitted(m, Peers(m.slaves), m.ready.Keys);
    forall u | u in m2.ready
      ensures !Everywhere(m2, Peers(m2.slaves), u)
    {
      assert u !in Eligible(m, Peers(m.slaves), m.ready.Keys);
      assert !Everywhere(m, Peers(m.slaves), u);
    }
  }

  lemma WaitingIsSubmitted(m: Master, u: Uuid)
    requires m.commits && u in Waiting(m)
    ensures Submitted(m, Peers(m.slaves), m.ready.Keys).jobs != m.jobs
  {
    var j := JobOf(m, Peers(m.slaves), u);
    assert j in JobsOf(m, Peers(m.slaves), Waiting(m));
    assert Submitted(m, Peers(m.slaves), m.ready.Keys).jobs[j] > m.jobs[j];
  }

  /**
   After a failed handoff the transactions held back are all submitted exactly
   when the quorum changed at that moment, to one with a majority, and they
   otherwise go on waiting although nothing holds them any more.
   */
  lemma FailedHandoffSubmitsIffQuorumChanged(m: Master)
    requires m.haveCluster && !m.commits && Waiting(m) != {}
    ensures var m2, q := Apply(m, HandoffFailed), Announced(m.held, QuorumOf(m.slaves));
      && m2.commits
      && Waiting(m2) == (if q != m.quorum && q.majority then {} else Waiting(m))
      && (m2.jobs == m.jobs <==> !(q != m.quorum && q.majority))
  {
    var q := Announced(m.held, QuorumOf(m.slaves));
    var m0 := m.(commits := true, quorum := q);
    var m1 := m0.(slaves := Cleaned(m0.slaves));
    PeersSurviveCleaning(m.slaves);
    WaitingCleaned(m0);
    assert Waiting(m0) == Waiting(m);
    hide Waiting, Submitted, Cleaned;
    if q != m.quorum && q.majority {
      var u :| u in Waiting(m1);
      WaitingIsSubmitted(m1, u);
      WaitingSubmitted(m1);
      SubmittedFields(m1, Peers(m.slaves), m.ready.Keys);
    }
  }
}
