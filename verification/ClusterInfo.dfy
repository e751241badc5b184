/**
 One node's view of its cluster: who its peers are, what they last reported,
 and which of them, or the node itself, it takes for its master.
 */
module ClusterInfo {
  import opened Stores
  import opened NodeStatus

  /** A transfer of mastership. A temporary one names the same node twice; a replacement refers to it. */
  datatype Baton = Baton(id: nat, resigning: Name, replacement: Name, temp: Option<nat>)

  datatype Info = Info(options: string, nomaster: bool)

  /** A configured peer, and what it reports while it is connected. */
  datatype Peer = Peer(info: Info, link: Option<Status>)

  type Cluster = map<Name, Peer>

  function PeerOf(c: Cluster, p: Name): Option<Peer> {
    if p in c then Some(c[p]) else None
  }

  datatype Node = Node(name: Name, info: Info, cluster: Cluster, status: Status, baton: Option<Baton>)

  predicate Connected(c: Cluster, p: Name) {
    p in c && c[p].link.Some?
  }

  function Report(c: Cluster, p: Name): Status
    requires Connected(c, p)
  {
    c[p].link.value
  }

  /** A connected peer that takes itself for the master. */
  predicate SelfMaster(c: Cluster, p: Name) {
    Connected(c, p) && Report(c, p).master == p
  }

  function SlavesIn(c: Cluster, names: set<Name>, m: Status): set<Name> {
    set p | p in names && Connected(c, p) && IsMasterOf(m, Report(c, p))
  }

  /** The connected peers that carry the given mastership. */
  function Slaves(c: Cluster, m: Status): set<Name> {
    SlavesIn(c, c.Keys, m)
  }

  function Annointed(name: Name, uuid: Uuid, now: nat): Status {
    Status(name, uuid, 0, now, false)
  }

  // ------------------------------------------------------------ what a recalculation must give

  /** The installed baton no longer makes sense. */
  predicate BatonStale(n: Node)
    requires n.baton.Some?
  {
    var b := n.baton.value;
    || (b.resigning != n.name && b.resigning !in n.cluster)
    || (b.replacement != n.name && !SelfMaster(n.cluster, b.replacement))
  }

  /** The baton that survives a recalculation. */
  function BatonKept(n: Node): Option<Baton> {
    if n.baton.Some? && !BatonStale(n) then n.baton else None
  }

  /** The status the node starts from: the baton, if it survives, overrides the current one. */
  function Initial(n: Node, uuid: Uuid, now: nat): Status {
    if BatonKept(n).None? then n.status
    else
      var to := BatonKept(n).value.replacement;
      if to != n.name then Report(n.cluster, to)
      else if n.status.master != n.name then Annointed(n.name, uuid, now)
      else n.status
  }

  /** The node's own claim, its slaves counted again. */
  function Claim(n: Node, s: Status): Status {
    s.(slavecount := |Slaves(n.cluster, s)|, reluctant := n.info.nomaster)
  }

  /**
   Staying with the current master needs its consent: it must be connected,
   call itself the master, and do so with the same uuid. Otherwise the node is
   its own master.
   */
  function Base(n: Node, s: Status, uuid: Uuid, now: nat): Status {
    if s.master == n.name then Claim(n, s)
    else if SelfMaster(n.cluster, s.master) && IsMasterOf(Report(n.cluster, s.master), s)
    then Report(n.cluster, s.master)
    else Claim(n, Annointed(n.name, uuid, now))
  }

  /** r is among the base and the reports of connected self-masters, and none of them is better. */
  ghost predicate Best(n: Node, base: Status, r: Status) {
    && (r == base || exists p :: SelfMaster(n.cluster, p) && Report(n.cluster, p) == r)
    && Compare(base, r) <= 0
    && forall p :: SelfMaster(n.cluster, p) ==> Compare(Report(n.cluster, p), r) <= 0
  }

  ghost predicate Outcome(n: Node, uuid: Uuid, now: nat, r: Status) {
    var base := Base(n, Initial(n, uuid, now), uuid, now);
    if BatonKept(n).Some? then r == base else Best(n, base, r)
  }

  /** A result that compares equal to the current status is not stored. */
  function Stored(s: Status, r: Status): Status {
    if Compare(s, r) == 0 then s else r
  }

  /** n becomes n2 by one recalculation. */
  ghost predicate Recalculated(n: Node, uuid: Uuid, now: nat, n2: Node) {
    exists r :: Outcome(n, uuid, now, r) && n2 == n.(status := Stored(n.status, r), baton := BatonKept(n))
  }

  predicate Valid(n: Node) {
    n.name !in n.cluster
  }

  // ------------------------------------------------------------ facts about recalculation

  /** The base is the node's own claim or the record of the self-master it names. */
  lemma BaseShape(n: Node, uuid: Uuid, now: nat)
    requires Valid(n)
    ensures var s := Initial(n, uuid, now);
      var base := Base(n, s, uuid, now);
      if base.master == n.name then base.slavecount == |Slaves(n.cluster, base)| && base.reluctant == n.info.nomaster
      else SelfMaster(n.cluster, base.master) && Report(n.cluster, base.master) == base
    ensures BatonKept(n).Some? ==> Base(n, Initial(n, uuid, now), uuid, now).master == BatonKept(n).value.replacement
  {
    var s := Initial(n, uuid, now);
    assert Slaves(n.cluster, s) == Slaves(n.cluster, Claim(n, s));
    var a := Annointed(n.name, uuid, now);
    assert Slaves(n.cluster, a) == Slaves(n.cluster, Claim(n, a));
  }

  /**
   The result names this node, or is the very record of a connected peer that
   calls itself the master. A claim of this node counts its slaves exactly.
   */
  lemma OutcomeShape(n: Node, uuid: Uuid, now: nat, r: Status)
    requires Valid(n) && Outcome(n, uuid, now, r)
    ensures if r.master == n.name then r.slavecount == |Slaves(n.cluster, r)| && r.reluctant == n.info.nomaster
            else SelfMaster(n.cluster, r.master) && Report(n.cluster, r.master) == r
  {
    BaseShape(n, uuid, now);
  }

  /** Whatever order the peers are visited in, there is only one result. */
  lemma OutcomeUnique(n: Node, uuid: Uuid, now: nat, r1: Status, r2: Status)
    requires Valid(n) && Outcome(n, uuid, now, r1) && Outcome(n, uuid, now, r2)
    ensures r1 == r2
  {
    BaseShape(n, uuid, now);
    if BatonKept(n).None? {
      BestShape(n, uuid, now, r1);
      BestShape(n, uuid, now, r2);
      CompareTotal(r1, r2);
      CompareTies(r1, r2);
      OutcomeBeatsAll(n, uuid, now, r1, r2);
      OutcomeBeatsAll(n, uuid, now, r2, r1);
    }
  }

  /** Of the connected peers that call themselves the master none is better than r. */
  ghost predicate NoneBetter(c: Cluster, r: Status) {
    forall p :: p in c && c[p].link.Some? && c[p].link.value.master == p ==> NotBetter(c[p].link.value, r)
  }

  /** The connected peers that report this mastership of the node's. */
  function Followers(n: Node, uuid: Uuid): set<Name> {
    set p | p in n.cluster && n.cluster[p].link.Some? && n.cluster[p].link.value.master == n.name
            && n.cluster[p].link.value.uuid == uuid
  }

  /** The node follows a connected peer that still has the mastership the node knows. */
  predicate MasterStays(n: Node) {
    var p := n.status.master;
    && p in n.cluster && n.cluster[p].link.Some?
    && n.cluster[p].link.value.master == p && n.cluster[p].link.value.uuid == n.status.uuid
  }

  lemma ClaimIs(n: Node, s: Status)
    requires s.master == n.name
    ensures Claim(n, s) == Status(n.name, s.uuid, |Followers(n, s.uuid)|, s.timestamp, n.info.nomaster)
  {
    assert Slaves(n.cluster, s) == Followers(n, s.uuid);
  }

  /**
   Without a baton no connected self-master is better than the result, nor is
   the node itself: as the master it was, or, if its master is gone or has
   another mastership, as a new one.
   */
  lemma OutcomeIsBest(n: Node, uuid: Uuid, now: nat, r: Status)
    requires Valid(n) && BatonKept(n).None? && Outcome(n, uuid, now, r)
    ensures NoneBetter(n.cluster, r)
    ensures r.master != n.name ==> r.master in n.cluster && n.cluster[r.master].link == Some(r)
    ensures n.status.master != n.name && MasterStays(n) ==> r.master != n.name && NotBetter(n.cluster[n.status.master].link.value, r)
    ensures n.status.master == n.name || !MasterStays(n) ==>
      var own := if n.status.master == n.name
        then Status(n.name, n.status.uuid, |Followers(n, n.status.uuid)|, n.status.timestamp, n.info.nomaster)
        else Status(n.name, uuid, |Followers(n, uuid)|, now, n.info.nomaster);
      NotBetter(own, r) && (r.master == n.name ==> r == own)
  {
    var base := Base(n, n.status, uuid, now);
    BestShape(n, uuid, now, r);
    ClaimIs(n, if n.status.master == n.name then n.status else Annointed(n.name, uuid, now));
    hide Compare, NotBetter, Claim, Followers;
    NotBetterIff(base, r);
    forall p | p in n.cluster && n.cluster[p].link.Some? && n.cluster[p].link.value.master == p
      ensures NotBetter(n.cluster[p].link.value, r)
    {
      assert SelfMaster(n.cluster, p);
      NotBetterIff(n.cluster[p].link.value, r);
    }
  }

  /**
   A baton survives exactly if the node that resigned is this one or still
   configured, and the replacement is this one or a connected self-master. Then
   the replacement is the master: by its own report, or this node by its own
   claim, a new one unless it was the master already.
   */
  lemma BatonDecides(n: Node, uuid: Uuid, now: nat, r: Status)
    requires Valid(n) && n.baton.Some? && Outcome(n, uuid, now, r)
    ensures var b := n.baton.value;
      && (BatonKept(n) == n.baton <==>
          && (b.resigning == n.name || b.resigning in n.cluster)
          && (b.replacement == n.name
              || (b.replacement in n.cluster && n.cluster[b.replacement].link.Some?
                  && n.cluster[b.replacement].link.value.master == b.replacement)))
      && (BatonKept(n) == n.baton || BatonKept(n) == None)
      && (BatonKept(n).Some? && b.replacement != n.name ==> n.cluster[b.replacement].link == Some(r))
      && (BatonKept(n).Some? && b.replacement == n.name ==>
          r == if n.status.master == n.name
               then Status(n.name, n.status.uuid, |Followers(n, n.status.uuid)|, n.status.timestamp, n.info.nomaster)
               else Status(n.name, uuid, |Followers(n, uuid)|, now, n.info.nomaster))
  {
    ClaimIs(n, if n.status.master == n.name then n.status else Annointed(n.name, uuid, now));
    hide Claim, Followers, Best;
  }

  lemma BestShape(n: Node, uuid: Uuid, now: nat, r: Status)
    requires Valid(n) && BatonKept(n).None? && Outcome(n, uuid, now, r)
    ensures r.master == n.name ==> r == Base(n, Initial(n, uuid, now), uuid, now)
    ensures r.master != n.name ==> SelfMaster(n.cluster, r.master) && Report(n.cluster, r.master) == r
  {
    BaseShape(n, uuid, now);
  }

  lemma OutcomeBeatsAll(n: Node, uuid: Uuid, now: nat, r: Status, other: Status)
    requires Valid(n) && BatonKept(n).None? && Outcome(n, uuid, now, r) && Outcome(n, uuid, now, other)
    ensures Compare(other, r) <= 0
  {
    BestShape(n, uuid, now, other);
  }

  /** With nothing reported meanwhile, recalculating again finds the same result, now stored. */
  lemma RecalculationIdempotent(n: Node, f1: Uuid, t1: nat, r1: Status, f2: Uuid, t2: nat, r2: Status)
    requires Valid(n) && Outcome(n, f1, t1, r1)
    requires Outcome(n.(status := r1, baton := BatonKept(n)), f2, t2, r2)
    ensures r2 == r1
  {
    var n1 := n.(status := r1, baton := BatonKept(n));
    OutcomeShape(n, f1, t1, r1);
    BaseShape(n, f1, t1);
    assert BatonKept(n1) == BatonKept(n);
    if BatonKept(n).None? {
      assert Initial(n1, f2, t2) == r1;
      assert Base(n1, r1, f2, t2) == r1;
      assert Best(n1, r1, r1) by {
        CompareTies(r1, r1);
      }
      assert Outcome(n1, f2, t2, r1);
      OutcomeUnique(n1, f2, t2, r1, r2);
    }
  }

  /** The status stored is the result exactly when they differ in more than the uuid, or not at all. */
  lemma StoredIsResultIff(s: Status, r: Status)
    ensures Stored(s, r) == r <==> (s.(uuid := r.uuid) == r ==> s.uuid == r.uuid)
    ensures Compare(Stored(s, r), r) == 0
  {
    CompareTies(s, r);
    CompareTies(r, r);
  }

  /** No connected peer carries this uuid. */
  ghost predicate Unseen(c: Cluster, uuid: Uuid) {
    forall p :: Connected(c, p) ==> Report(c, p).uuid != uuid
  }

  /**
   With nothing reported meanwhile, new uuids and a clock that does not run
   backwards, a second recalculation stores nothing, even where the first one
   left a result unstored for differing in the uuid alone.
   */
  lemma RecalculationSettles(n: Node, u1: Uuid, t1: nat, n1: Node, u2: Uuid, t2: nat, n2: Node)
    requires Valid(n) && Unseen(n.cluster, u1) && Unseen(n.cluster, u2) && t1 <= t2
    requires Recalculated(n, u1, t1, n1) && Recalculated(n1, u2, t2, n2)
    ensures n2 == n1
  {
    var r1 :| Outcome(n, u1, t1, r1) && n1 == n.(status := Stored(n.status, r1), baton := BatonKept(n));
    var r2 :| Outcome(n1, u2, t2, r2) && n2 == n1.(status := Stored(n1.status, r2), baton := BatonKept(n1));
    CompareTies(n.status, r1);
    CompareTies(r1, r1);
    if n1.status == r1 {
      RecalculationIdempotent(n, u1, t1, r1, u2, t2, r2);
    } else {
      OutcomeShape(n, u1, t1, r1);
      BaseShape(n, u1, t1);
      if BatonKept(n).None? && n.status.master != n.name {
        StaleResultStands(n, u1, t1, r1, u2, t2);
        OutcomeUnique(n1, u2, t2, r1, r2);
      }
    }
    CompareTies(n1.status, r2);
  }

  lemma StaleResultStands(n: Node, u1: Uuid, t1: nat, r1: Status, u2: Uuid, t2: nat)
    requires Valid(n) && Unseen(n.cluster, u1) && Unseen(n.cluster, u2) && t1 <= t2
    requires BatonKept(n).None? && n.status.master != n.name && Outcome(n, u1, t1, r1)
    requires r1.master != n.name
    ensures Outcome(n.(baton := None), u2, t2, r1)
  {
    var n1 := n.(baton := None);
    var c1 := Claim(n, Annointed(n.name, u1, t1));
    var c2 := Claim(n, Annointed(n.name, u2, t2));
    assert Slaves(n.cluster, Annointed(n.name, u1, t1)) == {};
    assert Slaves(n.cluster, Annointed(n.name, u2, t2)) == {};
    NamesOpposite(n.name, n.name);
    assert Compare(c2, c1) <= 0;
    if Base(n, n.status, u1, t1) == c1 {
      CompareTransitive(c2, c1, r1);
    }
    assert Best(n1, Base(n1, n1.status, u2, t2), r1);
  }

  lemma OneMoreSlave(c: Cluster, names: set<Name>, p: Name, s: Status)
    requires p in c && p !in names
    ensures |SlavesIn(c, names + {p}, s)|
         == |SlavesIn(c, names, s)| + (if Connected(c, p) && IsMasterOf(s, Report(c, p)) then 1 else 0)
  {
    if Connected(c, p) && IsMasterOf(s, Report(c, p)) {
      assert SlavesIn(c, names + {p}, s) == SlavesIn(c, names, s) + {p};
    } else {
      assert SlavesIn(c, names + {p}, s) == SlavesIn(c, names, s);
    }
  }

  lemma BetterStill(c: Cluster, cur: Status, r: Status)
    requires Compare(cur, r) > 0
    ensures forall p :: SelfMaster(c, p) && Compare(Report(c, p), r) <= 0 ==> Compare(Report(c, p), cur) <= 0
  {
    CompareTotal(cur, r);
    forall p | SelfMaster(c, p) && Compare(Report(c, p), r) <= 0
      ensures Compare(Report(c, p), cur) <= 0
    {
      CompareTransitive(Report(c, p), r, cur);
    }
  }

  lemma BestWrittenOut(n: Node, base: Status, r: Status)
    requires Best(n, base, r)
    ensures NotBetter(base, r)
    ensures NoneBetter(n.cluster, r)
  {
    hide NotBetter, Compare;
    NotBetterIff(base, r);
    forall p | p in n.cluster && n.cluster[p].link.Some? && n.cluster[p].link.value.master == p
      ensures NotBetter(n.cluster[p].link.value, r)
    {
      assert SelfMaster(n.cluster, p);
      NotBetterIff(n.cluster[p].link.value, r);
    }
  }

  // ------------------------------------------------------------ configuration and batons

  /** The peers of the new configuration, each keeping its connection. */
  function Configured(name: Name, c: Cluster, newcluster: map<Name, Info>): Cluster {
    map p | p in newcluster && p != name :: Peer(newcluster[p], if p in c then c[p].link else None)
  }

  /** The old peers, those among done already brought up to date. */
  function Merged(name: Name, c: Cluster, newcluster: map<Name, Info>, done: set<Name>): Cluster {
    map p | p in c.Keys + done * newcluster.Keys - {name} ::
      if p in done && p in newcluster then Peer(newcluster[p], if p in c then c[p].link else None) else c[p]
  }

  lemma MergeOne(name: Name, c: Cluster, newcluster: map<Name, Info>, done: set<Name>, p: Name)
    requires name !in c && p in newcluster && p !in done
    ensures Merged(name, c, newcluster, done + {p})
         == if p == name then Merged(name, c, newcluster, done)
            else Merged(name, c, newcluster, done)[p := Peer(newcluster[p], if p in c then c[p].link else None)]
    ensures p != name ==> PeerOf(Merged(name, c, newcluster, done), p) == PeerOf(c, p)
    ensures p != name && (p !in c || c[p].info != newcluster[p]) ==> Merged(name, c, newcluster, done + {p}) != c
    ensures p in c && c[p].info == newcluster[p] ==> Merged(name, c, newcluster, done + {p}) == Merged(name, c, newcluster, done)
  {
    if p in c && c[p].info == newcluster[p] {
      assert Merged(name, c, newcluster, done + {p}) == Merged(name, c, newcluster, done);
    }
  }

  lemma DropOne(was: Cluster, todo: set<Name>, names: set<Name>, p: Name)
    requires p in todo && todo <= was.Keys
    ensures var now := was - (was.Keys - todo - names);
      && was - (was.Keys - (todo - {p}) - names) == (if p in names then now else now - {p})
      && (p !in names ==> now - {p} != was)
  {
    if p in names {
      assert was.Keys - (todo - {p}) - names == was.Keys - todo - names;
    } else {
      assert was.Keys - (todo - {p}) - names == was.Keys - todo - names + {p};
    }
  }

  lemma MergedThenDropped(name: Name, c: Cluster, newcluster: map<Name, Info>)
    requires name !in c
    ensures var m := Merged(name, c, newcluster, newcluster.Keys);
      && m - (m.Keys - newcluster.Keys) == Configured(name, c, newcluster)
      && (m == c && m == Configured(name, c, newcluster) <==> c == Configured(name, c, newcluster))
      && (m != c ==> c != Configured(name, c, newcluster))
  {
    var m := Merged(name, c, newcluster, newcluster.Keys);
    assert m - (m.Keys - newcluster.Keys) == Configured(name, c, newcluster);
    if c == Configured(name, c, newcluster) {
      assert m == c;
    }
  }

  predicate Installable(n: Node, b: Baton) {
    && n.status.master == b.resigning
    && (n.baton.None? || Some(n.baton.value.id) == b.temp)
  }

  predicate Registrable(n: Node, p: Name) {
    p in n.cluster && n.cluster[p].link.None? && n.status.master != p
  }

  // ------------------------------------------------------------ the node

  class ClusterNode {
    const name: Name
    var info: Info
    var cluster: Cluster
    var status: Status
    var baton: Option<Baton>
    var cleared: set<nat>

    ghost function View(): Node
      reads this
    {
      Node(name, info, cluster, status, baton)
    }

    /** A node starts as its own master, none of its peers being connected. */
    constructor (name: Name, newcluster: map<Name, Info>, uuid: Uuid, now: nat)
      ensures this.name == name && Valid(View()) && baton.None? && cleared == {}
      ensures cluster.Keys == newcluster.Keys - {name}
      ensures forall p :: p in cluster ==> cluster[p] == Peer(newcluster[p], None)
      ensures name in newcluster ==> info == newcluster[name]
      ensures name != "" ==> status == Status(name, uuid, 0, now, info.nomaster)
    {
      this.name := name;
      info := Info("", false);
      cluster := map[];
      status := Status("", 0, 0, 0, false);
      baton := None;
      cleared := {};
      new;
      var needed := DoUpdateLocked(newcluster, false);
      var result, masterpeer := Calculate(uuid, now);
      assert Slaves(cluster, Annointed(name, uuid, now)) == {};
      status := result;
    }

    /** The current status, or what an installed baton makes of it. A stale baton is dropped. */
    method CalculateWithBaton(uuid: Uuid, now: nat) returns (s: Status)
      requires Valid(View())
      modifies this`baton
      ensures s == Initial(old(View()), uuid, now) && baton == BatonKept(old(View()))
      ensures baton == if old(baton).Some?
        && (old(baton).value.resigning == name || old(baton).value.resigning in cluster)
        && (old(baton).value.replacement == name || SelfMaster(cluster, old(baton).value.replacement))
        then old(baton) else None
    {
      if baton.None? {
        return status;
      }
      var b := baton.value;
      if b.resigning != name && b.resigning !in cluster {
        baton := None;
        return status;
      }
      var found := false;
      var batonStatus := status;
      if b.replacement == name && batonStatus.master != name {
        batonStatus := Annointed(name, uuid, now);
      }
      ghost var before := batonStatus;
      var todo := cluster.Keys;
      while todo != {}
        invariant todo <= cluster.Keys && baton == old(baton)
        invariant found <==> b.replacement !in todo && SelfMaster(cluster, b.replacement)
        invariant batonStatus == if found then Report(cluster, b.replacement) else before
        decreases |todo|
      {
        var p :| p in todo;
        todo := todo - {p};
        if cluster[p].link.None? {
          if p == b.replacement {
            baton := None;
            return status;
          }
          continue;
        }
        var cur := cluster[p].link.value;
        if p == b.replacement && cur.master == p {
          found := true;
          batonStatus := cur;
        }
      }
      if b.replacement != name && !found {
        baton := None;
        return status;
      }
      return batonStatus;
    }

    /** How many connected peers carry this mastership. */
    method CountSlaves(s: Status) returns (count: nat)
      ensures count == |Slaves(cluster, s)|
    {
      count := 0;
      var todo := cluster.Keys;
      while todo != {}
        invariant todo <= cluster.Keys
        invariant count == |SlavesIn(cluster, cluster.Keys - todo, s)|
        decreases |todo|
      {
        var p :| p in todo;
        OneMoreSlave(cluster, cluster.Keys - todo, p, s);
        assert cluster.Keys - (todo - {p}) == cluster.Keys - todo + {p};
        todo := todo - {p};
        if cluster[p].link.None? {
          continue;
        }
        if IsMasterOf(s, cluster[p].link.value) {
          count := count + 1;
        }
      }
      assert cluster.Keys - todo == cluster.Keys;
    }

    /** The status this node should have, and the peer it then has for a master. */
    method Calculate(uuid: Uuid, now: nat) returns (r: Status, masterpeer: Option<Name>)
      requires Valid(View())
      modifies this`baton
      ensures Outcome(old(View()), uuid, now, r) && baton == BatonKept(old(View()))
      ensures masterpeer == if r.master == name then None else Some(r.master)
      ensures baton.None? ==> NoneBetter(cluster, r)
    {
      ghost var was := View();
      BaseShape(was, uuid, now);
      var initial := CalculateWithBaton(uuid, now);
      var batonref := baton;
      r, masterpeer := initial, None;
      var iammaster := true;
      if initial.master != name {
        if initial.master in cluster && cluster[initial.master].link.Some? {
          var cur := cluster[initial.master].link.value;
          if cur.master == initial.master && IsMasterOf(cur, initial) {
            r, masterpeer := cur, Some(initial.master);
            iammaster := false;
          }
        }
        if iammaster {
          // A baton that survived names this node, or a peer that was just found to call itself the master.
          assert batonref.None?;
          r := Annointed(name, uuid, now);
        }
      }
      if iammaster {
        var count := CountSlaves(r);
        r := r.(slavecount := count, reluctant := info.nomaster);
      }
      assert r == Base(was, initial, uuid, now);
      if batonref.Some? {
        return;
      }
      r, masterpeer := FindBetter(r, masterpeer);
    }

    /** Search for a better master than the current one. */
    method FindBetter(base: Status, basepeer: Option<Name>) returns (r: Status, masterpeer: Option<Name>)
      requires Valid(View()) && basepeer == if base.master == name then None else Some(base.master)
      ensures Best(View(), base, r)
      ensures masterpeer == if r.master == name then None else Some(r.master)
      ensures NotBetter(base, r)
      ensures NoneBetter(cluster, r)
    {
      r, masterpeer := base, basepeer;
      CompareTies(r, r);
      var todo := cluster.Keys;
      while todo != {}
        invariant todo <= cluster.Keys
        invariant r == base || exists p :: SelfMaster(cluster, p) && Report(cluster, p) == r
        invariant Compare(base, r) <= 0
        invariant forall p :: SelfMaster(cluster, p) && p !in todo ==> Compare(Report(cluster, p), r) <= 0
        invariant masterpeer == if r.master == name then None else Some(r.master)
        decreases |todo|
      {
        var p :| p in todo;
        todo := todo - {p};
        if cluster[p].link.None? {
          continue;
        }
        var cur := cluster[p].link.value;
        if cur.master == name {
          continue;
        }
        if cur.master == p && Compare(cur, r) > 0 {
          BetterStill(cluster, cur, r);
          CompareTotal(r, cur);
          CompareTransitive(base, r, cur);
          CompareTies(cur, cur);
          assert SelfMaster(cluster, p) && Report(cluster, p) == cur;
          r, masterpeer := cur, Some(p);
        }
      }
      BestWrittenOut(View(), base, r);
    }

    /** Calculate the status and, unless it compares equal to the current one, store it. */
    method Recalculate(uuid: Uuid, now: nat) returns (newMaster: bool)
      requires Valid(View())
      modifies this`status, this`baton
      ensures Recalculated(old(View()), uuid, now, View())
      ensures newMaster <==> status.master != old(status.master)
    {
      var r, masterpeer := Calculate(uuid, now);
      CompareTies(status, r);
      if Compare(status, r) == 0 {
        return false;
      }
      newMaster := status.master != r.master;
      status := r;
    }

    /** Only a baton from the current master is accepted, alone or in place of the temporary one it refers to. */
    method InstallBaton(b: Baton, uuid: Uuid, now: nat) returns (ok: bool)
      requires Valid(View())
      modifies this`status, this`baton
      ensures ok <==> Installable(old(View()), b)
      ensures ok <==> old(status.master) == b.resigning && (old(baton).None? || b.temp == Some(old(baton).value.id))
      ensures ok ==> Recalculated(old(View()).(baton := Some(b)), uuid, now, View())
      ensures !ok ==> View() == old(View())
    {
      if status.master != b.resigning {
        return false;
      }
      var cur := baton;
      if cur.Some? && b.temp.Some? && cur.value.id == b.temp.value {
        cur := None;
      }
      if cur.Some? {
        return false;
      }
      baton := Some(b);
      var newMaster := Recalculate(uuid, now);
      return true;
    }

    method ClearBaton(b: Baton, uuid: Uuid, now: nat)
      requires Valid(View())
      modifies this`status, this`baton, this`cleared
      ensures cleared == old(cleared) + {b.id}
      ensures var was := old(View());
        if was.baton.Some? && was.baton.value.id in cleared then Recalculated(was.(baton := None), uuid, now, View())
        else View() == was
    {
      cleared := cleared + {b.id};
      if baton.None? || baton.value.id !in cleared {
        return;
      }
      baton := None;
      var newMaster := Recalculate(uuid, now);
    }

    /** Register a connection with a configured peer this node is not connected with, nor a slave of. */
    method InstallPeer(p: Name, s: Status) returns (ok: bool)
      requires Valid(View())
      modifies this`cluster
      ensures Valid(View()) && ok == Registrable(old(View()), p)
      ensures ok <==> p in old(cluster) && old(cluster)[p].link.None? && status.master != p
      ensures cluster == if ok then old(cluster)[p := Peer(old(cluster)[p].info, Some(s))] else old(cluster)
    {
      if p !in cluster {
        return false;
      }
      if cluster[p].link.Some? {
        return false;
      }
      if status.master == p {
        return false;
      }
      cluster := cluster[p := cluster[p].(link := Some(s))];
      return true;
    }

    /** Adopt a new cluster configuration, and tell whether anything changed. */
    method DoUpdateLocked(newcluster: map<Name, Info>, running: bool) returns (needed: bool)
      requires Valid(View())
      modifies this`info, this`cluster
      ensures Valid(View()) && cluster == Configured(name, old(cluster), newcluster)
      ensures cluster.Keys == newcluster.Keys - {name}
      ensures forall p :: p in cluster ==>
        cluster[p] == Peer(newcluster[p], if p in old(cluster) then old(cluster)[p].link else None)
      ensures info == if name in newcluster then newcluster[name] else old(info)
      ensures running ==> (needed <==> info != old(info) || cluster != old(cluster))
    {
      needed := MergeNew(newcluster, running);
      var dropped := DropGone(newcluster.Keys);
      needed := needed || dropped;
      MergedThenDropped(name, old(cluster), newcluster);
    }

    /** Add the new peers, and update the configuration of the old ones and of this node. */
    method MergeNew(newcluster: map<Name, Info>, running: bool) returns (needed: bool)
      requires Valid(View())
      modifies this`info, this`cluster
      ensures cluster == Merged(name, old(cluster), newcluster, newcluster.Keys)
      ensures info == if name in newcluster then newcluster[name] else old(info)
      ensures running ==> (needed <==> info != old(info) || cluster != old(cluster))
    {
      needed := false;
      ghost var was, wasInfo := cluster, info;
      var todo := newcluster.Keys;
      while todo != {}
        invariant todo <= newcluster.Keys && old(cluster) == was && old(info) == wasInfo
        invariant cluster == Merged(name, was, newcluster, newcluster.Keys - todo)
        invariant info == if name in newcluster && name !in todo then newcluster[name] else wasInfo
        invariant running ==> (needed <==> info != wasInfo || cluster != was)
        decreases |todo|
      {
        var p :| p in todo;
        MergeOne(name, was, newcluster, newcluster.Keys - todo, p);
        assert newcluster.Keys - (todo - {p}) == newcluster.Keys - todo + {p};
        todo := todo - {p};
        if p == name {
          if info != newcluster[p] || !running {
            info := newcluster[p];
            needed := true;
          }
          continue;
        }
        if p !in cluster {
          cluster := cluster[p := Peer(newcluster[p], None)];
          needed := true;
        } else if cluster[p].info != newcluster[p] {
          cluster := cluster[p := cluster[p].(info := newcluster[p])];
          needed := true;
        }
      }
      assert newcluster.Keys - todo == newcluster.Keys;
    }

    /** Remove the peers that are no longer configured. */
    method DropGone(names: set<Name>) returns (dropped: bool)
      modifies this`cluster
      ensures cluster == old(cluster) - (old(cluster).Keys - names)
      ensures dropped <==> cluster != old(cluster)
    {
      dropped := false;
      ghost var was := cluster;
      var todo := cluster.Keys;
      while todo != {}
        invariant todo <= was.Keys && old(cluster) == was
        invariant cluster == was - (was.Keys - todo - names)
        invariant dropped <==> cluster != was
        decreases |todo|
      {
        var p :| p in todo;
        DropOne(was, todo, names, p);
        todo := todo - {p};
        if p !in names {
          cluster := cluster - {p};
          dropped := true;
        }
      }
      assert was.Keys - todo - names == was.Keys - names;
    }
  }
}
