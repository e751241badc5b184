/** Mastership under a baton, over everything that can happen to a node. */
module BatonRuns {
  import opened Stores
  import opened NodeStatus
  import opened ClusterInfo

  datatype Event =
    | Reports(p: Name, s: Status)
    | Lost(p: Name)
    | Registers(p: Name, s: Status)
    | Reconfigures(newcluster: map<Name, Info>, uuid: Uuid, now: nat)
    | Recalculates(uuid: Uuid, now: nat)
    | Installs(b: Baton, uuid: Uuid, now: nat)
    | Clears(uuid: Uuid, now: nat)
    | BatonGone

  /** A peer's status or connection changes at any time, not only when the node looks. */
  ghost predicate Step(a: Node, e: Event, b: Node) {
    match e
    case Reports(p, s) => Connected(a.cluster, p) && b == a.(cluster := a.cluster[p := a.cluster[p].(link := Some(s))])
    case Lost(p) => Connected(a.cluster, p) && b == a.(cluster := a.cluster[p := a.cluster[p].(link := None)])
    case Registers(p, s) => Registrable(a, p) && b == a.(cluster := a.cluster[p := a.cluster[p].(link := Some(s))])
    case Reconfigures(newcluster, uuid, now) =>
      var c := a.(cluster := Configured(a.name, a.cluster, newcluster),
                  info := if a.name in newcluster then newcluster[a.name] else a.info);
      if c == a then b == a else Recalculated(c, uuid, now, b)
    case Recalculates(uuid, now) => Recalculated(a, uuid, now, b)
    case Installs(baton, uuid, now) =>
      if Installable(a, baton) then Recalculated(a.(baton := Some(baton)), uuid, now, b) else b == a
    case Clears(uuid, now) => Recalculated(a.(baton := None), uuid, now, b)
    case BatonGone => b == a.(baton := None)
  }

  ghost predicate Run(trace: seq<Node>, es: seq<Event>) {
    && |trace| == |es| + 1
    && forall i :: 0 <= i < |es| ==> Step(trace[i], es[i], trace[i + 1])
  }

  ghost predicate BatonNamesMaster(n: Node) {
    n.baton.Some? ==> n.status.master == n.baton.value.replacement
  }

  /** A surviving baton decides who the master is. */
  lemma RecalculatedFollowsBaton(n: Node, uuid: Uuid, now: nat, n2: Node)
    requires Valid(n) && Recalculated(n, uuid, now, n2)
    ensures Valid(n2) && BatonNamesMaster(n2)
    ensures n2.baton.Some? ==> n2.baton == n.baton && !BatonStale(n)
  {
    var r :| Outcome(n, uuid, now, r) && n2 == n.(status := Stored(n.status, r), baton := BatonKept(n));
    BaseShape(n, uuid, now);
    CompareTies(n.status, r);
  }

  /** In every state of every run no baton is installed, or the master is the baton's replacement. */
  lemma {:induction false} MasterIsTheReplacement(trace: seq<Node>, es: seq<Event>)
    requires Run(trace, es) && Valid(trace[0]) && BatonNamesMaster(trace[0])
    ensures forall i :: 0 <= i < |trace| ==> Valid(trace[i]) && BatonNamesMaster(trace[i])
    decreases |es|
  {
    if es != [] {
      StepFollowsBaton(trace[0], es[0], trace[1]);
      assert Run(trace[1..], es[1..]);
      MasterIsTheReplacement(trace[1..], es[1..]);
      forall i | 0 <= i < |trace|
        ensures Valid(trace[i]) && BatonNamesMaster(trace[i])
      {
        if i > 0 {
          assert trace[i] == trace[1..][i - 1];
        }
      }
    }
  }

  lemma StepFollowsBaton(a: Node, e: Event, b: Node)
    requires Valid(a) && BatonNamesMaster(a) && Step(a, e, b)
    ensures Valid(b) && BatonNamesMaster(b)
  {
    hide Recalculated, BatonNamesMaster;
    match e
    case Reports(_, _) => FollowsFrame(a, b);
    case Lost(_) => FollowsFrame(a, b);
    case Registers(_, _) => FollowsFrame(a, b);
    case Reconfigures(newcluster, uuid, now) =>
      var c := a.(cluster := Configured(a.name, a.cluster, newcluster),
                  info := if a.name in newcluster then newcluster[a.name] else a.info);
      if c != a {
        RecalculatedFollowsBaton(c, uuid, now, b);
      }
    case Recalculates(uuid, now) => RecalculatedFollowsBaton(a, uuid, now, b);
    case Installs(baton, uuid, now) =>
      if Installable(a, baton) {
        RecalculatedFollowsBaton(a.(baton := Some(baton)), uuid, now, b);
      }
    case Clears(uuid, now) => RecalculatedFollowsBaton(a.(baton := None), uuid, now, b);
    case BatonGone => FollowsFrame(a, b);
  }

  lemma FollowsFrame(a: Node, b: Node)
    requires BatonNamesMaster(a) && b.status == a.status && (b.baton == a.baton || b.baton.None?)
    ensures BatonNamesMaster(b)
  {
  }

  /** After a recalculation that leaves no baton no connected self-master is better than the node's status. */
  lemma RecalculatedIsBest(n: Node, uuid: Uuid, now: nat, n2: Node)
    requires Valid(n) && Recalculated(n, uuid, now, n2) && n2.baton.None?
    ensures NoneBetter(n2.cluster, n2.status)
  {
    var r :| Outcome(n, uuid, now, r) && n2 == n.(status := Stored(n.status, r), baton := BatonKept(n));
    OutcomeIsBest(n, uuid, now, r);
    StoredIsResultIff(n.status, r);
    CompareTies(n.status, r);
    hide Outcome, Compare, NameBefore;
    assert n2.status == r || n2.status == r.(uuid := n2.status.uuid);
  }

  /** A baton that is gone no longer decides: the next recalculation takes the best of all again. */
  lemma GoneBatonDecidesNothing(a: Node, b: Node, uuid: Uuid, now: nat, c: Node)
    requires Valid(a) && Step(a, BatonGone, b) && Step(b, Recalculates(uuid, now), c)
    ensures c.baton.None? && NoneBetter(a.cluster, c.status)
  {
    assert BatonKept(b).None?;
    RecalculatedIsBest(b, uuid, now, c);
    hide NoneBetter;
  }

  /** The node holds a temporary baton for itself and is the master. */
  predicate Holding(n: Node, b: Baton, s: Status) {
    && Valid(n)
    && n.baton == Some(b) && b.resigning == b.replacement == n.name
    && n.status.master == n.name && n.status.uuid == s.uuid && n.status.timestamp == s.timestamp
  }

  /** What would take the baton away: its end, or a replacement that refers to it. */
  predicate TakesAway(e: Event, b: Baton) {
    || e.Clears? || e.BatonGone?
    || (e.Installs? && e.b.temp == Some(b.id))
  }

  lemma RecalculatedHolding(n: Node, b: Baton, s: Status, uuid: Uuid, now: nat, n2: Node)
    requires Holding(n, b, s) && Recalculated(n, uuid, now, n2)
    ensures Holding(n2, b, s)
  {
    var r :| Outcome(n, uuid, now, r) && n2 == n.(status := Stored(n.status, r), baton := BatonKept(n));
    CompareTies(n.status, r);
  }

  lemma StepHolding(a: Node, e: Event, b: Node, baton: Baton, s: Status)
    requires Holding(a, baton, s) && Step(a, e, b) && !TakesAway(e, baton)
    ensures Holding(b, baton, s)
  {
    hide Recalculated;
    match e
    case Reports(_, _) =>
    case Lost(_) =>
    case Registers(_, _) =>
    case Reconfigures(newcluster, uuid, now) =>
      var c := a.(cluster := Configured(a.name, a.cluster, newcluster),
                  info := if a.name in newcluster then newcluster[a.name] else a.info);
      if c != a {
        RecalculatedHolding(c, baton, s, uuid, now, b);
      }
    case Recalculates(uuid, now) => RecalculatedHolding(a, baton, s, uuid, now, b);
    case Installs(_, _, _) =>
  }

  /**
   A master holding a temporary baton for itself stays the master under the
   same uuid and timestamp whatever peers report, until the baton ends or its
   replacement is installed.
   */
  lemma {:induction false} TemporaryBatonProtects(trace: seq<Node>, es: seq<Event>, b: Baton)
    requires Run(trace, es) && Holding(trace[0], b, trace[0].status)
    requires forall i :: 0 <= i < |es| ==> !TakesAway(es[i], b)
    ensures forall i :: 0 <= i < |trace| ==> Holding(trace[i], b, trace[0].status)
  {
    HoldsAlong(trace, es, b, trace[0].status);
  }

  lemma {:induction false} HoldsAlong(trace: seq<Node>, es: seq<Event>, b: Baton, s: Status)
    requires Run(trace, es) && Holding(trace[0], b, s)
    requires forall i :: 0 <= i < |es| ==> !TakesAway(es[i], b)
    ensures forall i :: 0 <= i < |trace| ==> Holding(trace[i], b, s)
    decreases |es|
  {
    if es != [] {
      StepHolding(trace[0], es[0], trace[1], b, s);
      assert Run(trace[1..], es[1..]);
      HoldsAlong(trace[1..], es[1..], b, s);
      forall i | 0 <= i < |trace|
        ensures Holding(trace[i], b, s)
      {
        if i > 0 {
          assert trace[i] == trace[1..][i - 1];
        }
      }
    }
  }
}
