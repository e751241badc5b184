/**
 The master's controller: which slaves it counts, whether it has a quorum, and
 which received transactions it submits for commitment.
 */
module MasterController {
  import opened Stores

  /**
   The master's end of a slave's connection: the record its receipts go to, the
   connection's own uuid, and whether the connection object and the link live.
   */
  datatype Conn = NoConn | Conn(record: nat, uuid: Uuid, peer: bool, link: bool)

  /** Who reports: this node, or a slave's connection with the record it was given. */
  datatype Node = ThisNode | Peer(name: Name, record: nat)

  /** What a node reports about a transaction it received. */
  datatype Receipt = Receipt(ok: bool, source: Name)

  type Receipts = map<Uuid, Receipt>

  /** A slave being copied to: whether the copying thread still runs, and whether the commit lock was requested. */
  datatype Sync = NoSync | Syncing(running: bool, lockRequested: bool)

  datatype Slave = Slave(conn: Conn, received: Receipts, sync: Sync, synced: bool)

  datatype Quorum = Quorum(full: bool, majority: bool)

  datatype Job = Job(uuid: Uuid, receipt: Receipt, peers: set<Name>)

  type Slaves = map<Name, Slave>

  /** held: some controller has not started yet, and forces the announced quorum to false. */
  datatype Master = Master(
    slaves: Slaves, ready: Receipts, committing: set<Uuid>,
    quorum: Quorum, commits: bool, jobs: multiset<Job>,
    haveCluster: bool, held: bool)

  const NEWSLAVE := Slave(NoConn, map[], NoSync, false)

  /** A slave that just joined, with nothing received and out of sync. */
  function Joined(record: nat, uuid: Uuid): Slave {
    NEWSLAVE.(conn := Conn(record, uuid, false, true))
  }

  predicate Lost(s: Slave) {
    s.conn.Conn? && !s.conn.peer && !s.conn.link
  }

  /** Connected, not lost, and in sync. */
  predicate Counted(s: Slave) {
    s.conn.Conn? && !Lost(s) && s.synced
  }

  function Peers(slaves: Slaves): set<Name> {
    set p | p in slaves && Counted(slaves[p])
  }

  /** Slaves found lost are forgotten, but stay configured. */
  function Cleaned(slaves: Slaves): Slaves {
    map p | p in slaves :: if Lost(slaves[p]) then NEWSLAVE else slaves[p]
  }

  function QuorumOf(slaves: Slaves): Quorum {
    if slaves == map[] then Quorum(true, true)
    else Quorum(|Peers(slaves)| == |slaves|, |Peers(slaves)| >= (|slaves| + 1) / 2)
  }

  function Announced(held: bool, q: Quorum): Quorum {
    if held then Quorum(false, false) else q
  }

  // ------------------------------------------------------------ which transactions are submitted

  /** Received by this node and by every peer. */
  predicate Everywhere(m: Master, peers: set<Name>, u: Uuid) {
    u in m.ready && forall p :: p in peers && p in m.slaves ==> u in m.slaves[p].received
  }

  /** Every peer reports success, from the same source as this node. */
  predicate AllOk(m: Master, peers: set<Name>, u: Uuid) {
    && Everywhere(m, peers, u) && m.ready[u].ok
    && forall p :: p in peers && p in m.slaves ==>
      m.slaves[p].received[u].ok && m.slaves[p].received[u].source == m.ready[u].source
  }

  function Eligible(m: Master, peers: set<Name>, uuids: set<Uuid>): set<Uuid> {
    set u | u in uuids && Everywhere(m, peers, u)
  }

  function JobOf(m: Master, peers: set<Name>, u: Uuid): Job
    requires u in m.ready
  {
    Job(u, Receipt(AllOk(m, peers, u), m.ready[u].source), peers)
  }

  function JobsOf(m: Master, peers: set<Name>, us: set<Uuid>): set<Job> {
    set u | u in us && u in m.ready :: JobOf(m, peers, u)
  }

  /** Submit the eligible ones among the given transactions, unless commits are held. */
  function Submitted(m: Master, peers: set<Name>, uuids: set<Uuid>): Master {
    if !m.commits then m
    else
      var us := Eligible(m, peers, uuids);
      m.(ready := m.ready - us, committing := m.committing + us, jobs := m.jobs + multiset(JobsOf(m, peers, us)))
  }

  /** A quorum that changed, or must be announced, has every received transaction considered again. */
  function Computed(m: Master, force: bool): Master {
    var q := Announced(m.held, QuorumOf(m.slaves));
    var m1 := m.(slaves := Cleaned(m.slaves), quorum := q);
    if (q != m.quorum || force) && q.majority then Submitted(m1, Peers(m.slaves), m.ready.Keys) else m1
  }

  function ComputedIfKnown(m: Master, force: bool): Master {
    if m.haveCluster then Computed(m, force) else m
  }

  /** Consider some transactions, if there is a quorum after all. */
  function Checked(m: Master, uuids: set<Uuid>): Master {
    var m1 := Computed(m, false);
    if m1.quorum.majority then Submitted(m1, Peers(m.slaves), uuids) else m1
  }

  // ------------------------------------------------------------ what goes on waiting

  /** Some slave that is connected and in sync has not received the transaction. */
  ghost predicate Awaited(slaves: Slaves, u: Uuid) {
    exists p :: p in slaves && slaves[p].conn.Conn? && (slaves[p].conn.peer || slaves[p].conn.link)
             && slaves[p].synced && u !in slaves[p].received
  }

  lemma PeersSurviveCleaning(slaves: Slaves)
    ensures Peers(Cleaned(slaves)) == Peers(slaves) && Cleaned(slaves).Keys == slaves.Keys
    ensures |Cleaned(slaves)| == |slaves|
    ensures QuorumOf(Cleaned(slaves)) == QuorumOf(slaves)
  {
    assert |Cleaned(slaves).Keys| == |Cleaned(slaves)| && |slaves.Keys| == |slaves|;
    assert Peers(Cleaned(slaves)) == Peers(slaves);
    assert slaves == map[] <==> slaves.Keys == {};
  }

  /** What is considered and not submitted is still to be received by a counted slave. */
  lemma SubmittedLeaves(m: Master, peers: set<Name>, uuids: set<Uuid>)
    requires m.commits && peers == Peers(m.slaves)
    ensures var m2 := Submitted(m, peers, uuids);
      m2.slaves == m.slaves && forall u :: u in uuids && u in m2.ready ==> Awaited(m.slaves, u)
  {
    forall u | u in uuids && u in Submitted(m, peers, uuids).ready
      ensures Awaited(m.slaves, u)
    {
      assert !Everywhere(m, peers, u);
      var p :| p in peers && p in m.slaves && u !in m.slaves[p].received;
    }
  }

  lemma ComputedLeaves(m: Master, force: bool)
    ensures var m2 := Computed(m, force);
      && m2.slaves == Cleaned(m.slaves) && m2.commits == m.commits
      && (m2.quorum.majority && m.commits && (m2.quorum != m.quorum || force)
          ==> forall u :: u in m2.ready ==> Awaited(m2.slaves, u))
  {
    var q := Announced(m.held, QuorumOf(m.slaves));
    var m1 := m.(slaves := Cleaned(m.slaves), quorum := q);
    PeersSurviveCleaning(m.slaves);
    if (q != m.quorum || force) && q.majority && m.commits {
      SubmittedLeaves(m1, Peers(m.slaves), m.ready.Keys);
    }
  }

  lemma CheckedLeaves(m: Master, uuids: set<Uuid>)
    ensures Checked(m, uuids).commits == m.commits
    ensures var m2 := Checked(m, uuids);
      m2.quorum.majority && m.commits ==>
        && (forall u :: u in uuids && u in m2.ready ==> Awaited(m2.slaves, u))
        && (m2.quorum != m.quorum ==> forall u :: u in m2.ready ==> Awaited(m2.slaves, u))
  {
    var m1 := Computed(m, false);
    ComputedLeaves(m, false);
    PeersSurviveCleaning(m.slaves);
    if m1.quorum.majority && m1.commits {
      SubmittedLeaves(m1, Peers(m.slaves), uuids);
    }
    hide Computed, Awaited, Eligible, JobsOf;
  }

  // ------------------------------------------------------------ what happens to a controller

  datatype Event =
    | ClusterUpdated(names: set<Name>)
    | PeerNewMaster(p: Name, record: nat, uuid: Uuid)
    | Accepted(p: Name)
    | SyncSlave(p: Name, uuid: Uuid, dstLive: bool)
    | CheckCopyCompleted(locked: set<Name>)
    | Received(node: Node, uuids: Receipts)
    | Cancelled(node: Node, gone: set<Uuid>)
    | CheckQuorum
    | HoldCommits
    | HandoffFailed
    | PeerGone(p: Name)
    | LinkGone(p: Name)
    | CopyEnded(p: Name)
    | HeldChanged(holds: bool)

  function Reconfigured(slaves: Slaves, names: set<Name>): Slaves {
    map p | p in names :: if p in slaves then slaves[p] else NEWSLAVE
  }

  /**
   The copying thread has ended: the commit lock is requested, and once it is
   held the slave is released and in sync, whether or not the copy succeeded.
   */
  function Completed(s: Slave, locked: bool): Slave {
    if s.sync.NoSync? || (s.sync.running && !s.sync.lockRequested) then s
    else if locked then s.(sync := NoSync, synced := true)
    else s.(sync := s.sync.(lockRequested := true))
  }

  function CompletedAll(slaves: Slaves, locked: set<Name>): Slaves {
    map p | p in slaves :: Completed(slaves[p], p in locked)
  }

  predicate Completes(s: Slave, locked: bool) {
    s.sync.Syncing? && Completed(s, locked).sync.NoSync?
  }

  /** What another node received is added to what was already known of it. */
  function Receive(received: Receipts, uuids: Receipts): Receipts {
    uuids + received
  }

  /** A copy starts for the slave's current connection, if its end still lives and no copy is under way. */
  predicate MaySync(s: Slave, uuid: Uuid, dstLive: bool) {
    s.conn.Conn? && s.conn.peer && s.conn.uuid == uuid && dstLive && s.sync.NoSync?
  }

  /** The connection's receipts still go to the slave's entry. */
  predicate Reports(slaves: Slaves, name: Name, record: nat) {
    name in slaves && slaves[name].conn.Conn? && slaves[name].conn.record == record
  }

  function Apply(m: Master, e: Event): Master {
    match e
    case ClusterUpdated(names) =>
      Computed(m.(slaves := Reconfigured(m.slaves, names), haveCluster := true), !m.haveCluster)
    case PeerNewMaster(p, record, uuid) =>
      if p !in m.slaves then m
      else
        var m1 := ComputedIfKnown(m.(slaves := m.slaves[p := NEWSLAVE]), false);
        m1.(slaves := m1.slaves[p := Joined(record, uuid)])
    case Accepted(p) =>
      if p in m.slaves && m.slaves[p].conn.Conn? && m.slaves[p].conn.link
      then m.(slaves := m.slaves[p := m.slaves[p].(conn := m.slaves[p].conn.(peer := true))])
      else m
    case SyncSlave(p, uuid, dstLive) =>
      if p in m.slaves && MaySync(m.slaves[p], uuid, dstLive)
      then m.(slaves := m.slaves[p := m.slaves[p].(sync := Syncing(true, false))])
      else m
    case CheckCopyCompleted(locked) =>
      var m1 := m.(slaves := CompletedAll(m.slaves, locked));
      if exists p :: p in m.slaves && Completes(m.slaves[p], p in locked) then ComputedIfKnown(m1, false) else m1
    case Received(node, uuids) =>
      var m1 := ReceivedBy(m, node, uuids);
      if m.quorum.majority then Checked(m1, uuids.Keys) else m1
    case Cancelled(node, uuids) =>
      (match node
       case ThisNode => m.(ready := m.ready - uuids, committing := m.committing - uuids)
       case Peer(p, record) =>
         if Reports(m.slaves, p, record)
         then m.(slaves := m.slaves[p := m.slaves[p].(received := m.slaves[p].received - uuids)])
         else m)
    case CheckQuorum => ComputedIfKnown(m, false)
    case HoldCommits => m.(commits := false)
    case HandoffFailed => ComputedIfKnown(m.(commits := true), false)
    case PeerGone(p) =>
      if p in m.slaves && m.slaves[p].conn.Conn?
      then m.(slaves := m.slaves[p := m.slaves[p].(conn := m.slaves[p].conn.(peer := false))])
      else m
    case LinkGone(p) =>
      if p in m.slaves && m.slaves[p].conn.Conn?
      then m.(slaves := m.slaves[p := m.slaves[p].(conn := m.slaves[p].conn.(link := false))])
      else m
    case CopyEnded(p) =>
      if p in m.slaves && m.slaves[p].sync.Syncing?
      then m.(slaves := m.slaves[p := m.slaves[p].(sync := Syncing(false, m.slaves[p].sync.lockRequested))])
      else m
    case HeldChanged(held) => m.(held := held)
  }

  /** What a former connection of a slave reports is not recorded. */
  function ReceivedBy(m: Master, node: Node, uuids: Receipts): Master {
    match node
    case ThisNode => m.(ready := Receive(m.ready, uuids))
    case Peer(p, record) =>
      if Reports(m.slaves, p, record)
      then m.(slaves := m.slaves[p := m.slaves[p].(received := Receive(m.slaves[p].received, uuids))])
      else m
  }

  // ------------------------------------------------------------ the controller

  // The loops below are described by what they have left to do.

  function CountedBut(slaves: Slaves, todo: set<Name>): set<Name> {
    set q | q in slaves && q !in todo && Counted(slaves[q])
  }

  function CleanedBut(slaves: Slaves, todo: set<Name>): Slaves {
    map q | q in slaves :: if q !in todo && Lost(slaves[q]) then NEWSLAVE else slaves[q]
  }

  lemma OneMoreCounted(slaves: Slaves, todo: set<Name>, p: Name)
    requires p in slaves && p in todo
    ensures var c := CleanedBut(slaves, todo);
      && p in c && c[p] == slaves[p]
      && CleanedBut(slaves, todo - {p}) == if Lost(slaves[p]) then c[p := NEWSLAVE] else c
    ensures var c := CountedBut(slaves, todo);
      && p !in c
      && CountedBut(slaves, todo - {p}) == if Counted(slaves[p]) then c + {p} else c
  {
  }

  /** The transactions the asked peers have all received, and what they say about them. */
  function CommitSet(m: Master, asked: set<Name>, uuids: set<Uuid>): Receipts {
    map u | u in uuids && Everywhere(m, asked, u) :: Receipt(AllOk(m, asked, u), m.ready[u].source)
  }

  function AskedOf(r: Receipt, received: Receipt): Receipt {
    Receipt(r.ok && received.ok && received.source == r.source, r.source)
  }

  /** The commit set, all but todo already compared with what the peer received. */
  function AskedBut(commitset: Receipts, received: Receipts, todo: set<Uuid>): Receipts {
    map u | u in commitset && (u in todo || u in received) ::
      if u in todo then commitset[u] else AskedOf(commitset[u], received[u])
  }

  function Asked(commitset: Receipts, received: Receipts): Receipts {
    AskedBut(commitset, received, {})
  }

  lemma AskedOneMore(commitset: Receipts, received: Receipts, todo: set<Uuid>, u: Uuid)
    requires u in commitset && u in todo
    ensures var r := AskedBut(commitset, received, todo);
      && u in r && r[u] == commitset[u]
      && AskedBut(commitset, received, todo - {u})
         == if u in received then r[u := AskedOf(commitset[u], received[u])] else r - {u}
  {
  }

  lemma AskOneMore(m: Master, asked: set<Name>, p: Name, uuids: set<Uuid>)
    requires p in m.slaves
    ensures CommitSet(m, asked + {p}, uuids) == Asked(CommitSet(m, asked, uuids), m.slaves[p].received)
  {
    var a, b := CommitSet(m, asked + {p}, uuids), Asked(CommitSet(m, asked, uuids), m.slaves[p].received);
    forall u
      ensures u in a <==> u in b
      ensures u in a && u in b ==> a[u] == b[u]
    {
      if u in m.ready {
        assert Everywhere(m, asked + {p}, u) <==> Everywhere(m, asked, u) && u in m.slaves[p].received;
        assert Everywhere(m, asked + {p}, u) ==> (AllOk(m, asked + {p}, u) <==>
          AllOk(m, asked, u) && m.slaves[p].received[u].ok && m.slaves[p].received[u].source == m.ready[u].source);
      }
    }
  }

  function DoneOf(us: set<Uuid>, todo: set<Uuid>): set<Uuid> {
    set u | u in us && u !in todo
  }

  function JobsBut(m: Master, peers: set<Name>, us: set<Uuid>, todo: set<Uuid>): set<Job> {
    JobsOf(m, peers, DoneOf(us, todo))
  }

  lemma DoneOneMore(us: set<Uuid>, todo: set<Uuid>, u: Uuid)
    requires u in us && u in todo
    ensures DoneOf(us, todo - {u}) == DoneOf(us, todo) + {u} && u !in DoneOf(us, todo)
  {
  }

  lemma JobsOneMore(m: Master, peers: set<Name>, us: set<Uuid>, todo: set<Uuid>, u: Uuid)
    requires u in m.ready && u in us && u in todo
    ensures JobsBut(m, peers, us, todo - {u}) == JobsBut(m, peers, us, todo) + {JobOf(m, peers, u)}
    ensures JobOf(m, peers, u) !in JobsBut(m, peers, us, todo)
  {
    DoneOneMore(us, todo, u);
  }

  lemma OneMoreJob(js: set<Job>, j: Job)
    requires j !in js
    ensures multiset(js + {j}) == multiset(js) + multiset{j}
  {
  }

  lemma OneMoreSubmitted(m: Master, ready: Receipts, committing: set<Uuid>, jobs: multiset<Job>,
                         peers: set<Name>, us: set<Uuid>, todo: set<Uuid>, u: Uuid)
    requires u in m.ready && u in us && u in todo
    ensures ready - DoneOf(us, todo - {u}) == ready - DoneOf(us, todo) - {u}
    ensures committing + DoneOf(us, todo - {u}) == committing + DoneOf(us, todo) + {u}
    ensures jobs + multiset(JobsBut(m, peers, us, todo - {u}))
         == jobs + multiset(JobsBut(m, peers, us, todo)) + multiset{JobOf(m, peers, u)}
  {
    DoneOneMore(us, todo, u);
    JobsOneMore(m, peers, us, todo, u);
    OneMoreJob(JobsBut(m, peers, us, todo), JobOf(m, peers, u));
    hide DoneOf, JobsBut;
  }

  function AddedBut(slaves: Slaves, names: set<Name>, todo: set<Name>): Slaves {
    map p | p in slaves.Keys + names && (p in slaves || p !in todo) :: if p in slaves then slaves[p] else NEWSLAVE
  }

  lemma AddOneMore(slaves: Slaves, names: set<Name>, todo: set<Name>, p: Name)
    requires p in names && p in todo
    ensures var a := AddedBut(slaves, names, todo);
      AddedBut(slaves, names, todo - {p}) == if p in a then a else a[p := NEWSLAVE]
  {
  }

  lemma AddedThenDropped(slaves: Slaves, names: set<Name>)
    ensures var a := AddedBut(slaves, names, {}); a - (a.Keys - names) == Reconfigured(slaves, names)
  {
  }

  function CompletedBut(slaves: Slaves, todo: set<Name>, locked: set<Name>): Slaves {
    map p | p in slaves :: if p in todo then slaves[p] else Completed(slaves[p], p in locked)
  }

  predicate SomeCompletes(slaves: Slaves, todo: set<Name>, locked: set<Name>) {
    exists p :: p in slaves && p !in todo && Completes(slaves[p], p in locked)
  }

  lemma CompleteOneMore(slaves: Slaves, todo: set<Name>, locked: set<Name>, p: Name)
    requires p in slaves && p in todo
    ensures var c := CompletedBut(slaves, todo, locked);
      && p in c && c[p] == slaves[p]
      && CompletedBut(slaves, todo - {p}, locked) == c[p := Completed(slaves[p], p in locked)]
    ensures SomeCompletes(slaves, todo - {p}, locked)
      <==> SomeCompletes(slaves, todo, locked) || Completes(slaves[p], p in locked)
  {
    assert Completes(slaves[p], p in locked) ==> p !in todo - {p};
    if SomeCompletes(slaves, todo, locked) {
      var q :| q in slaves && q !in todo && Completes(slaves[q], q in locked);
      assert q !in todo - {p};
    }
  }

  class MasterNode {
    var slaves: Slaves
    var ready: Receipts
    var committing: set<Uuid>
    var quorum: Quorum
    var commits: bool
    var jobs: multiset<Job>
    var haveCluster: bool
    var held: bool

    ghost function State(): Master
      reads this
    {
      Master(slaves, ready, committing, quorum, commits, jobs, haveCluster, held)
    }

    constructor (held: bool)
      ensures State() == Start(held)
    {
      slaves, ready, committing, quorum := map[], map[], {}, Quorum(false, false);
      commits, jobs, haveCluster, this.held := true, multiset{}, false, held;
    }

    /** The slaves that count, after forgetting those that were lost, and the quorum they make. */
    method GetPeers() returns (peers: set<Name>, q: Quorum)
      modifies this`slaves
      ensures slaves == Cleaned(old(slaves)) && peers == Peers(old(slaves)) && q == QuorumOf(old(slaves))
      ensures q == Quorum(|peers| == |old(slaves)|, 2 * |peers| >= |old(slaves)|)
    {
      ghost var was := slaves;
      q := Quorum(true, true);
      peers := {};
      if slaves == map[] {
        return;
      }
      var totpeers, totslaves := 0, 0;
      var todo := slaves.Keys;
      while todo != {}
        invariant todo <= was.Keys && old(slaves) == was && slaves == CleanedBut(was, todo)
        invariant peers == CountedBut(was, todo)
        invariant totpeers == |peers| && totslaves + |todo| == |was.Keys|
        decreases |todo|
      {
        var p :| p in todo;
        OneMoreCounted(was, todo, p);
        todo := todo - {p};
        totslaves := totslaves + 1;
        if slaves[p].conn.NoConn? {
          continue;
        }
        if !slaves[p].conn.peer && !slaves[p].conn.link {
          slaves := slaves[p := NEWSLAVE];
          continue;
        }
        if !slaves[p].synced {
          continue;
        }
        peers := peers + {p};
        totpeers := totpeers + 1;
      }
      assert peers == Peers(was) && |was.Keys| == |was|;
      q := Quorum(totpeers == totslaves, totpeers >= (totslaves + 1) / 2);
    }

    method ComputeQuorumGetPeers(force: bool) returns (majority: bool, peers: set<Name>)
      modifies this
      ensures State() == Computed(old(State()), force)
      ensures majority == quorum.majority && peers == Peers(old(slaves))
    {
      var q;
      peers, q := GetPeers();
      var changed := false;
      q := if held then Quorum(false, false) else q;
      if q != quorum {
        changed := true;
        quorum := q;
      }
      if !changed && !force {
        return quorum.majority, peers;
      }
      if quorum.majority {
        CheckCommitPeers(ready.Keys, peers);
      }
      return quorum.majority, peers;
    }

    method ComputeQuorum(force: bool)
      modifies this
      ensures State() == ComputedIfKnown(old(State()), force)
    {
      if !haveCluster {
        return;
      }
      var majority, peers := ComputeQuorumGetPeers(force);
    }

    method CheckCommit(uuids: set<Uuid>)
      modifies this
      ensures State() == Checked(old(State()), uuids)
      ensures quorum.majority && commits ==> forall u :: u in uuids && u in ready ==> Awaited(slaves, u)
    {
      CheckedLeaves(State(), uuids);
      var majority, peers := ComputeQuorumGetPeers(false);
      if !majority {
        return;
      }
      CheckCommitPeers(uuids, peers);
    }

    /** Narrow the given transactions down to those every peer received, and submit them. */
    method CheckCommitPeers(uuids: set<Uuid>, peers: set<Name>)
      requires peers <= slaves.Keys
      modifies this`ready, this`committing, this`jobs
      ensures State() == Submitted(old(State()), peers, uuids)
    {
      if !commits {
        return;
      }
      ghost var m := State();
      var commitset := map u | u in uuids && u in ready :: ready[u];
      var todo := peers;
      ghost var asked: set<Name> := {};
      assert commitset == CommitSet(m, asked, uuids);
      while todo != {}
        invariant State() == m && todo <= peers && (forall p :: p in peers <==> p in asked || p in todo)
        invariant commitset == CommitSet(m, asked, uuids)
        decreases |todo|
      {
        var p :| p in todo;
        AskOneMore(m, asked, p, uuids);
        todo, asked := todo - {p}, asked + {p};
        commitset := AskPeer(commitset, slaves[p].received);
      }
      assert asked == peers;
      assert commitset.Keys == Eligible(m, peers, uuids);
      assert DoneOf(commitset.Keys, {}) == commitset.Keys;
      SubmitAll(commitset, peers, m);
    }

    /** Drop what the peer has not received; note what it disagrees with. */
    method AskPeer(commitset: Receipts, received: Receipts) returns (r: Receipts)
      ensures r == Asked(commitset, received)
    {
      r := commitset;
      var todo := commitset.Keys;
      while todo != {}
        invariant todo <= commitset.Keys && r == AskedBut(commitset, received, todo)
        decreases |todo|
      {
        var u :| u in todo;
        AskedOneMore(commitset, received, todo, u);
        todo := todo - {u};
        if u !in received {
          r := r - {u};
        } else if received[u].source != r[u].source {
          r := r[u := r[u].(ok := false)];
        } else if !received[u].ok {
          r := r[u := r[u].(ok := false)];
        } else {
          assert r[u := r[u]] == r;
        }
      }
    }

    method SubmitAll(commitset: Receipts, peers: set<Name>, ghost m: Master)
      requires commitset.Keys <= m.ready.Keys
      requires forall u :: u in commitset ==> Job(u, commitset[u], peers) == JobOf(m, peers, u)
      modifies this`ready, this`committing, this`jobs
      ensures ready == old(ready) - DoneOf(commitset.Keys, {})
      ensures committing == old(committing) + DoneOf(commitset.Keys, {})
      ensures jobs == old(jobs) + multiset(JobsBut(m, peers, commitset.Keys, {}))
    {
      var todo := commitset.Keys;
      ghost var us, wasReady, was, wasJobs := commitset.Keys, ready, committing, jobs;
      assert DoneOf(us, todo) == {} && JobsBut(m, peers, us, todo) == {};
      while todo != {}
        invariant todo <= us
        invariant ready == wasReady - DoneOf(us, todo)
        invariant committing == was + DoneOf(us, todo)
        invariant jobs == wasJobs + multiset(JobsBut(m, peers, us, todo))
        decreases |todo|
      {
        var u :| u in todo;
        SubmitOne(u, Job(u, commitset[u], peers));
        OneMoreSubmitted(m, wasReady, was, wasJobs, peers, us, todo, u);
        todo := todo - {u};
      }
    }

    method SubmitOne(u: Uuid, job: Job)
      modifies this`ready, this`committing, this`jobs
      ensures ready == old(ready) - {u} && committing == old(committing) + {u} && jobs == old(jobs) + multiset{job}
    {
      ready := ready - {u};
      committing := committing + {u};
      jobs := jobs + multiset{job};
    }

    // ---------------------------------------------------------- what the controller is told

    method DispatchClusterUpdated(names: set<Name>)
      modifies this
      ensures State() == Apply(old(State()), ClusterUpdated(names))
    {
      var already := haveCluster;
      haveCluster := true;
      AddPeers(names);
      slaves := slaves - (slaves.Keys - names);
      AddedThenDropped(old(slaves), names);
      assert State() == old(State()).(slaves := Reconfigured(old(slaves), names), haveCluster := true);
      ComputeQuorum(!already);
    }

    method AddPeers(names: set<Name>)
      modifies this`slaves
      ensures slaves == AddedBut(old(slaves), names, {})
    {
      ghost var was := slaves;
      var todo := names;
      assert AddedBut(was, names, names) == was;
      while todo != {}
        invariant todo <= names && slaves == AddedBut(was, names, todo)
        decreases |todo|
      {
        var p :| p in todo;
        AddOneMore(was, names, todo, p);
        todo := todo - {p};
        if p !in slaves {
          slaves := slaves[p := NEWSLAVE];
        }
      }
    }

    method DispatchPeerNewMaster(p: Name, record: nat, uuid: Uuid)
      modifies this
      ensures State() == Apply(old(State()), PeerNewMaster(p, record, uuid))
    {
      if p !in slaves {
        return;
      }
      slaves := slaves[p := NEWSLAVE];
      ComputeQuorum(false);
      slaves := slaves[p := Joined(record, uuid)];
    }

    method DispatchSyncSlave(p: Name, uuid: Uuid, dstLive: bool)
      modifies this`slaves
      ensures State() == Apply(old(State()), SyncSlave(p, uuid, dstLive))
      ensures slaves == if p in old(slaves) && old(slaves)[p].conn.Conn? && old(slaves)[p].conn.peer
        && old(slaves)[p].conn.uuid == uuid && dstLive && old(slaves)[p].sync.NoSync?
        then old(slaves)[p := old(slaves)[p].(sync := Syncing(true, false))] else old(slaves)
    {
      if p !in slaves {
        return;
      }
      var s := slaves[p];
      if s.conn.NoConn? || !s.conn.peer || s.conn.uuid != uuid {
        return;
      }
      if !dstLive {
        return;
      }
      if s.sync.Syncing? {
        return;
      }
      slaves := slaves[p := s.(sync := Syncing(true, false))];
    }

    /** locked holds the slaves whose commit lock is held by now. */
    method DispatchCheckCopyCompleted(locked: set<Name>)
      modifies this
      ensures State() == Apply(old(State()), CheckCopyCompleted(locked))
    {
      var checkQuorum := CompleteSyncs(locked);
      assert slaves == CompletedAll(old(slaves), locked);
      if checkQuorum {
        ComputeQuorum(false);
      }
    }

    method CompleteSyncs(locked: set<Name>) returns (checkQuorum: bool)
      modifies this`slaves
      ensures slaves == CompletedBut(old(slaves), {}, locked)
      ensures checkQuorum <==> SomeCompletes(old(slaves), {}, locked)
    {
      checkQuorum := false;
      ghost var was := slaves;
      var todo := slaves.Keys;
      while todo != {}
        invariant todo <= was.Keys && slaves == CompletedBut(was, todo, locked)
        invariant checkQuorum <==> SomeCompletes(was, todo, locked)
        decreases |todo|
      {
        var p :| p in todo;
        CompleteOneMore(was, todo, locked, p);
        assert slaves[p := was[p]] == slaves;
        todo := todo - {p};
        var s := slaves[p];
        if s.sync.NoSync? {
          continue;
        }
        if !s.sync.lockRequested {
          if s.sync.running {
            continue;
          }
          s := s.(sync := s.sync.(lockRequested := true));
          slaves := slaves[p := s];
        }
        if p !in locked {
          continue;
        }
        slaves := slaves[p := s.(sync := NoSync, synced := true)];
        checkQuorum := true;
      }
    }

    method DispatchTransactionsReceived(node: Node, uuids: Receipts)
      modifies this
      ensures State() == Apply(old(State()), Received(node, uuids))
      ensures old(quorum.majority) && quorum.majority && commits ==> forall u :: u in uuids && u in ready ==> Awaited(slaves, u)
      ensures !old(quorum.majority) ==> jobs == old(jobs) && quorum == old(quorum)
    {
      RecordReceived(node, uuids);
      if quorum.majority {
        CheckCommit(uuids.Keys);
      }
    }

    /** What was received before is not overwritten; what a former connection reports is not recorded. */
    method RecordReceived(node: Node, uuids: Receipts)
      modifies this`ready, this`slaves
      ensures State() == ReceivedBy(old(State()), node, uuids)
    {
      match node
      case ThisNode =>
        ready := Receive(ready, uuids);
      case Peer(p, record) =>
        if Reports(slaves, p, record) {
          slaves := slaves[p := slaves[p].(received := Receive(slaves[p].received, uuids))];
        }
    }

    method DispatchHandoffFailed()
      modifies this
      ensures State() == Apply(old(State()), HandoffFailed)
    {
      commits := true;
      ComputeQuorum(false);
    }
  }

  /** A controller before it is told of any peers. */
  function Start(held: bool): Master {
    Master(map[], map[], {}, Quorum(false, false), true, multiset{}, false, held)
  }
}
