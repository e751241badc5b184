/**
 A node's successive repository controllers. A new controller is constructed
 as soon as the node has a new master, but starts only when its predecessor is
 gone; until it has started, the published quorum is forced to false.
 */
module ControllerChain {
  import opened Stores
  import M = MasterController

  datatype Phase = Waiting | Started | Running | Stopping | Destroyed

  /** token: not started yet. handoff: the successor it was told of. next: the successor it will start. */
  datatype Controller = Controller(phase: Phase, token: bool, handoff: Option<nat>, next: Option<nat>)

  /** made: a controller constructed and not linked yet. cur: the newest linked one. by: who published last. */
  datatype Chain = Chain(cs: seq<Controller>, made: bool, cur: Option<nat>, published: M.Quorum, publisher: nat)

  const FORCED := M.Quorum(false, false)

  const START := Chain([], false, None, FORCED, 0)

  datatype Action =
    | Construct
    | Link
    | Run(k: nat)
    | Publish(k: nat, q: M.Quorum)
    | TakeHandoff(k: nat)
    | Stop(k: nat)
    | Destroy(k: nat)
    | Forget(k: nat)

  predicate Is(c: Chain, k: nat, p: Phase) {
    k < |c.cs| && c.cs[k].phase == p
  }

  /** Construct and Link happen under the node's status lock. A waiting controller lives as long as its start is pending. */
  predicate Enabled(c: Chain, a: Action) {
    match a
    case Construct => !c.made
    case Link => c.made && |c.cs| > 0
    case Run(k) => Is(c, k, Started)
    case Publish(k, _) => Is(c, k, Running)
    case TakeHandoff(k) => Is(c, k, Running) && c.cs[k].handoff.Some?
    case Stop(k) => Is(c, k, Started) || Is(c, k, Running)
    case Destroy(k) => Is(c, k, Stopping)
    case Forget(k) =>
      && Is(c, k, Waiting) && c.cur != Some(k) && !(c.made && k == |c.cs| - 1)
      && k > 0 && Is(c, k - 1, Destroyed)
  }

  predicate TokenHeld(c: Chain) {
    exists k :: 0 <= k < |c.cs| && c.cs[k].token
  }

  function Published(c: Chain, k: nat, q: M.Quorum): Chain {
    c.(published := if TokenHeld(c) then FORCED else q, publisher := k)
  }

  function With(c: Chain, k: nat, t: Controller): Chain
    requires k < |c.cs|
  {
    c.(cs := c.cs[k := t])
  }

  function StartNext(c: Chain, next: Option<nat>): Chain {
    if next.Some? && next.value < |c.cs| then With(c, next.value, c.cs[next.value].(phase := Started)) else c
  }

  function Apply(c: Chain, a: Action): Chain
    requires Enabled(c, a)
  {
    match a
    case Construct =>
      c.(cs := c.cs + [Controller(Waiting, true, None, None)], made := true, published := FORCED, publisher := |c.cs|)
    case Link =>
      var newest := |c.cs| - 1;
      var c1 := c.(made := false, cur := Some(newest));
      if c.cur.None? then With(c1, newest, c.cs[newest].(phase := Started))
      else if c.cur.value < newest then With(c1, c.cur.value, c.cs[c.cur.value].(handoff := Some(newest)))
      else c1
    case Run(k) => With(Published(c, k, FORCED), k, c.cs[k].(phase := Running, token := false))
    case Publish(k, q) => Published(c, k, q)
    case TakeHandoff(k) => With(c, k, c.cs[k].(phase := Stopping, next := c.cs[k].handoff))
    case Stop(k) => With(c, k, c.cs[k].(phase := Stopping))
    case Destroy(k) =>
      StartNext(With(c, k, c.cs[k].(phase := Destroyed, token := false)), c.cs[k].next)
    case Forget(k) => With(c, k, c.cs[k].(phase := Destroyed, token := false))
  }

  ghost predicate Runs(c: Chain, acts: seq<Action>, c2: Chain)
    decreases |acts|
  {
    if acts == [] then c2 == c else Enabled(c, acts[0]) && Runs(Apply(c, acts[0]), acts[1..], c2)
  }

  // ------------------------------------------------------------ what is always true

  /** One controller fits its place in the chain. */
  predicate ControllerOk(c: Chain, k: nat)
    requires k < |c.cs|
  {
    var t := c.cs[k];
    && (t.phase.Waiting? || t.phase.Started? ==> t.token)
    && (t.phase.Running? || t.phase.Destroyed? ==> !t.token)
    && (t.next.Some? ==> t.next == t.handoff && (t.phase.Stopping? || t.phase.Destroyed?))
    && (t.handoff.Some? <==> k + 1 < |c.cs| && !(c.made && k + 1 == |c.cs| - 1))
    && (t.handoff.Some? ==> t.handoff == Some(k + 1))
    && (k > 0 && !t.phase.Waiting? ==> c.cs[k - 1].phase.Destroyed?)
    && (k > 0 && !t.phase.Waiting? && !t.phase.Destroyed? ==> c.cs[k - 1].next.Some?)
    && (k > 0 && c.cs[k - 1].phase.Destroyed? && c.cs[k - 1].next.Some? ==> !t.phase.Waiting?)
    && (k == 0 && !(c.made && |c.cs| == 1) ==> !t.phase.Waiting?)
    && (c.made && k == |c.cs| - 1 ==> t.phase.Waiting?)
  }

  predicate ChainOk(c: Chain) {
    && (c.made ==> |c.cs| > 0)
    && c.cur == (var n := if c.made then |c.cs| - 1 else |c.cs|; if n > 0 then Some(n - 1) else None)
    && (c.published != FORCED ==> !TokenHeld(c) && c.publisher == |c.cs| - 1)
  }

  predicate Inv(c: Chain) {
    ChainOk(c) && forall k :: 0 <= k < |c.cs| ==> ControllerOk(c, k)
  }

  /** When a running controller finds no token held, it is the newest. */
  lemma PublisherIsNewest(c: Chain, k: nat)
    requires Inv(c) && Is(c, k, Running) && !TokenHeld(c)
    ensures k == |c.cs| - 1
  {
    assert k + 1 < |c.cs| ==> ControllerOk(c, k + 1);
  }

  lemma NoNewToken(c: Chain, a: Action)
    requires Enabled(c, a) && !a.Construct? && TokenHeld(Apply(c, a))
    ensures TokenHeld(c)
  {
    var c2 := Apply(c, a);
    var k :| 0 <= k < |c2.cs| && c2.cs[k].token;
    assert c.cs[k].token;
  }

  lemma LinkOk(c: Chain, k: nat)
    requires Inv(c) && Enabled(c, Link) && k < |c.cs|
    ensures ControllerOk(Apply(c, Link), k)
  {
    assert ControllerOk(c, k);
    assert k > 0 ==> ControllerOk(c, k - 1);
  }

  lemma DestroyFields(c: Chain, d: nat)
    requires Inv(c) && Enabled(c, Destroy(d))
    ensures var c2 := Apply(c, Destroy(d));
      && |c2.cs| == |c.cs| && c2.made == c.made && c2.cs[d] == c.cs[d].(phase := Destroyed, token := false)
      && (c.cs[d].next.Some? ==> d + 1 < |c.cs|)
      && forall k :: 0 <= k < |c.cs| && k != d ==>
        c2.cs[k] == if k == d + 1 && c.cs[d].next.Some? then c.cs[k].(phase := Started) else c.cs[k]
  {
    assert ControllerOk(c, d);
  }

  lemma DestroyOk(c: Chain, d: nat, k: nat)
    requires Inv(c) && Enabled(c, Destroy(d)) && k < |c.cs|
    ensures ControllerOk(Apply(c, Destroy(d)), k)
  {
    DestroyFields(c, d);
    hide Apply, ChainOk;
    assert ControllerOk(c, d) && ControllerOk(c, k);
    assert d + 1 < |c.cs| ==> ControllerOk(c, d + 1);
    assert k > 0 ==> ControllerOk(c, k - 1);
  }

  lemma OtherOk(c: Chain, a: Action, k: nat)
    requires Inv(c) && Enabled(c, a) && !a.Construct? && !a.Link? && !a.Destroy? && k < |c.cs|
    ensures ControllerOk(Apply(c, a), k)
  {
    assert ControllerOk(c, k);
    assert k > 0 ==> ControllerOk(c, k - 1);
  }

  lemma ConstructOk(c: Chain, k: nat)
    requires Inv(c) && Enabled(c, Construct) && k <= |c.cs|
    ensures ControllerOk(Apply(c, Construct), k)
  {
    assert k < |c.cs| ==> ControllerOk(c, k);
    assert k > 0 ==> ControllerOk(c, k - 1);
  }

  lemma ChainStays(c: Chain, a: Action)
    requires Inv(c) && Enabled(c, a)
    ensures ChainOk(Apply(c, a))
  {
    if !a.Construct? && TokenHeld(Apply(c, a)) {
      NoNewToken(c, a);
    }
    if a.Publish? && !TokenHeld(c) {
      PublisherIsNewest(c, a.k);
    }
    hide TokenHeld, ControllerOk;
  }

  lemma StepKeeps(c: Chain, a: Action)
    requires Inv(c) && Enabled(c, a)
    ensures Inv(Apply(c, a)) && |c.cs| <= |Apply(c, a).cs| <= |c.cs| + 1
  {
    var c2 := Apply(c, a);
    ChainStays(c, a);
    forall k | 0 <= k < |c2.cs|
      ensures ControllerOk(c2, k)
    {
      match a
      case Construct => ConstructOk(c, k);
      case Link => LinkOk(c, k);
      case Destroy(d) => DestroyOk(c, d, k);
      case _ => OtherOk(c, a, k);
    }
    hide ControllerOk, ChainOk;
  }

  lemma {:induction false} RunKeeps(c: Chain, acts: seq<Action>, c2: Chain)
    requires Inv(c) && Runs(c, acts, c2)
    ensures Inv(c2)
    decreases |acts|
  {
    hide Inv, Apply, Enabled;
    if acts != [] {
      StepKeeps(c, acts[0]);
      RunKeeps(Apply(c, acts[0]), acts[1..], c2);
    }
  }

  // ------------------------------------------------------------ over every run

  /** Started and not yet gone. */
  predicate Active(c: Chain, k: nat) {
    k < |c.cs| && (c.cs[k].phase.Started? || c.cs[k].phase.Running? || c.cs[k].phase.Stopping?)
  }

  lemma {:induction false} PredecessorsGone(c: Chain, j: nat, k: nat)
    requires Inv(c) && j < k < |c.cs| && !c.cs[k].phase.Waiting?
    ensures c.cs[j].phase.Destroyed?
    decreases k
  {
    assert ControllerOk(c, k);
    if j < k - 1 {
      PredecessorsGone(c, j, k - 1);
    }
  }

  /**
   At most one controller is active: those constructed before it are gone, and
   none of those constructed after it has started.
   */
  lemma OneActiveController(acts: seq<Action>, c: Chain, k: nat)
    requires Runs(START, acts, c) && Active(c, k)
    ensures forall j :: 0 <= j < k ==> c.cs[j].phase.Destroyed?
    ensures forall j :: k < j < |c.cs| ==> c.cs[j].phase.Waiting?
    ensures forall j :: 0 <= j && Active(c, j) ==> j == k
  {
    RunKeeps(START, acts, c);
    forall j | 0 <= j < k
      ensures c.cs[j].phase.Destroyed?
    {
      PredecessorsGone(c, j, k);
    }
    forall j | k < j < |c.cs|
      ensures c.cs[j].phase.Waiting?
    {
      if !c.cs[j].phase.Waiting? {
        PredecessorsGone(c, k, j);
      }
    }
  }

  /**
   Controllers form one line: each is told of its direct successor, and of
   nothing else, so no two hand off to the same one.
   */
  lemma ChainIsLinear(acts: seq<Action>, c: Chain, j: nat, k: nat)
    requires Runs(START, acts, c) && j < |c.cs| && k < |c.cs|
    ensures c.cs[j].handoff == None || c.cs[j].handoff == Some(j + 1)
    ensures c.cs[j].next == None || c.cs[j].next == c.cs[j].handoff
    ensures c.cs[j].handoff.Some? && c.cs[j].handoff == c.cs[k].handoff ==> j == k
    ensures c.cur.Some? ==> (c.cs[j].handoff.Some? <==> j < c.cur.value)
  {
    RunKeeps(START, acts, c);
    assert ControllerOk(c, j) && ControllerOk(c, k);
  }

  /** Once handed off, a controller is never told of another successor. */
  lemma {:induction false} HandedOffOnce(acts: seq<Action>, c: Chain, more: seq<Action>, c2: Chain, k: nat)
    requires Runs(START, acts, c) && Runs(c, more, c2) && k < |c.cs| && c.cs[k].handoff.Some?
    ensures k < |c2.cs| && c2.cs[k].handoff == c.cs[k].handoff
  {
    RunKeeps(START, acts, c);
    HandoffStays(c, more, c2, k);
  }

  lemma {:induction false} HandoffStays(c: Chain, more: seq<Action>, c2: Chain, k: nat)
    requires Inv(c) && Runs(c, more, c2) && k < |c.cs| && c.cs[k].handoff.Some?
    ensures k < |c2.cs| && c2.cs[k].handoff == c.cs[k].handoff
    decreases |more|
  {
    if more != [] {
      var c1 := Apply(c, more[0]);
      StepKeeps(c, more[0]);
      assert ControllerOk(c, k) && ControllerOk(c1, k);
      hide Inv, ControllerOk;
      assert c1.cs[k].handoff == c.cs[k].handoff;
      HandoffStays(c1, more[1..], c2, k);
    }
  }

  /**
   A quorum other than the forced one is only published while no constructed
   controller has yet to start, and it is the newest controller's own.
   */
  lemma QuorumIsTheNewests(acts: seq<Action>, c: Chain)
    requires Runs(START, acts, c) && c.published != FORCED
    ensures |c.cs| > 0 && c.publisher == |c.cs| - 1 && !c.cs[|c.cs| - 1].phase.Waiting?
    ensures forall k :: 0 <= k < |c.cs| ==> !c.cs[k].token
  {
    RunKeeps(START, acts, c);
    assert ControllerOk(c, |c.cs| - 1);
  }

  /** A controller that was destroyed having taken its handoff has started its successor, and the first one linked has started. */
  lemma SuccessorStarted(acts: seq<Action>, c: Chain, k: nat)
    requires Runs(START, acts, c) && k < |c.cs|
    ensures c.cs[k].phase.Destroyed? && c.cs[k].next.Some? ==> c.cs[k].next.value < |c.cs| && !c.cs[c.cs[k].next.value].phase.Waiting?
    ensures c.cur.Some? ==> !c.cs[0].phase.Waiting?
  {
    RunKeeps(START, acts, c);
    assert ControllerOk(c, k) && ControllerOk(c, 0);
    assert k + 1 < |c.cs| ==> ControllerOk(c, k + 1);
  }

  /**
   A linked controller that is not gone has started if and only if it is the
   first, or its predecessor is gone and had taken its handoff.
   */
  lemma StartedIff(acts: seq<Action>, c: Chain, k: nat)
    requires Runs(START, acts, c) && c.cur.Some? && k <= c.cur.value < |c.cs| && !c.cs[k].phase.Destroyed?
    ensures !c.cs[k].phase.Waiting? <==> k == 0 || (c.cs[k - 1].phase.Destroyed? && c.cs[k - 1].next == Some(k))
  {
    RunKeeps(START, acts, c);
    assert ControllerOk(c, k);
    assert k > 0 ==> ControllerOk(c, k - 1);
  }

  /**
   If every controller before the newest linked one is gone, and each stopped by
   taking its handoff, the newest has started.
   */
  lemma NewestStarted(acts: seq<Action>, c: Chain)
    requires Runs(START, acts, c) && c.cur.Some?
    requires forall k :: 0 <= k < c.cur.value && k < |c.cs| ==> c.cs[k].phase.Destroyed? && c.cs[k].next.Some?
    ensures c.cur.value < |c.cs| && !c.cs[c.cur.value].phase.Waiting?
  {
    RunKeeps(START, acts, c);
    var n := c.cur.value;
    assert ControllerOk(c, n);
  }

  /** Once it stops or is gone, what a controller will start stays what it was. */
  lemma {:induction false} NextStays(c: Chain, more: seq<Action>, c2: Chain, k: nat)
    requires Inv(c) && Runs(c, more, c2) && k < |c.cs| && (c.cs[k].phase.Stopping? || c.cs[k].phase.Destroyed?)
    ensures k < |c2.cs| && (c2.cs[k].phase.Stopping? || c2.cs[k].phase.Destroyed?) && c2.cs[k].next == c.cs[k].next
    decreases |more|
  {
    if more != [] {
      var c1 := Apply(c, more[0]);
      StepKeeps(c, more[0]);
      NextStaysOneStep(c, more[0], k);
      hide Inv, Apply, Enabled;
      NextStays(c1, more[1..], c2, k);
    }
  }

  lemma NextStaysOneStep(c: Chain, a: Action, k: nat)
    requires Inv(c) && Enabled(c, a) && k < |c.cs| && (c.cs[k].phase.Stopping? || c.cs[k].phase.Destroyed?)
    ensures var c1 := Apply(c, a);
      k < |c1.cs| && (c1.cs[k].phase.Stopping? || c1.cs[k].phase.Destroyed?) && c1.cs[k].next == c.cs[k].next
  {
    assert ControllerOk(c, k);
    if a.Destroy? {
      DestroyFields(c, a.k);
      assert ControllerOk(c, a.k);
    }
  }

  /**
   A controller that takes its handoff was told of its direct successor, and from
   then on, whatever happens, that one has started as soon as the controller is
   gone.
   */
  lemma HandoffStartsSuccessor(acts: seq<Action>, c: Chain, k: nat, more: seq<Action>, c2: Chain)
    requires Runs(START, acts, c) && Enabled(c, TakeHandoff(k)) && Runs(Apply(c, TakeHandoff(k)), more, c2)
    ensures k + 1 < |c2.cs| && (c2.cs[k].phase.Stopping? || c2.cs[k].phase.Destroyed?)
    ensures c2.cs[k].phase.Destroyed? <==> !c2.cs[k + 1].phase.Waiting?
  {
    RunKeeps(START, acts, c);
    assert ControllerOk(c, k);
    var c1 := Apply(c, TakeHandoff(k));
    assert c1.cs[k].next == Some(k + 1);
    StepKeeps(c, TakeHandoff(k));
    NextStays(c1, more, c2, k);
    RunKeeps(c1, more, c2);
    hide Apply;
    assert ControllerOk(c2, k);
    assert k + 1 < |c2.cs|;
    assert ControllerOk(c2, k + 1);
  }

  /** A controller stopped without its handoff leaves its successor waiting; one that will never start gives its token up. */
  lemma StoppedLeavesSuccessorWaiting(acts: seq<Action>, c: Chain, k: nat)
    requires Runs(START, acts, c)
    ensures Enabled(c, Stop(k)) ==>
      var c1 := Apply(c, Stop(k));
      Enabled(c1, Destroy(k)) && Apply(c1, Destroy(k)).cs[k].phase.Destroyed?
      && (k + 1 < |c.cs| ==> Apply(c1, Destroy(k)).cs[k + 1].phase.Waiting?)
    ensures Enabled(c, Forget(k)) ==>
      Apply(c, Forget(k)).cs[k].phase.Destroyed? && !Apply(c, Forget(k)).cs[k].token
  {
    RunKeeps(START, acts, c);
    if k < |c.cs| {
      assert ControllerOk(c, k);
      assert k + 1 < |c.cs| ==> ControllerOk(c, k + 1);
    }
  }

  /**
   What a running controller publishes takes effect exactly if it is the newest
   constructed; any other only gets the forced status published.
   */
  lemma PublishedIffNewest(acts: seq<Action>, c: Chain, k: nat, q: M.Quorum)
    requires Runs(START, acts, c) && Enabled(c, Publish(k, q))
    ensures Apply(c, Publish(k, q)).published == if k == |c.cs| - 1 then q else M.Quorum(false, false)
  {
    RunKeeps(START, acts, c);
    if k == |c.cs| - 1 {
      forall j | 0 <= j < |c.cs|
        ensures !c.cs[j].token
      {
        assert ControllerOk(c, j);
        if j < k {
          PredecessorsGone(c, j, k);
        }
      }
    } else {
      assert ControllerOk(c, k + 1);
      assert c.cs[k + 1].token;
    }
  }

  // ------------------------------------------------------------ a node's controllers

  class RepoCluster {
    var cs: seq<Controller>
    var made: bool
    var cur: Option<nat>
    var published: M.Quorum
    ghost var publisher: nat

    ghost function View(): Chain
      reads this
    {
      Chain(cs, made, cur, published, publisher)
    }

    constructor ()
      ensures View() == START
    {
      cs, made, cur, published, publisher := [], false, None, FORCED, 0;
    }

    /** The given status, unless some controller's token is still held. */
    method ReportedStatus(q: M.Quorum) returns (r: M.Quorum)
      ensures r == if TokenHeld(View()) then FORCED else q
      ensures (forall j :: 0 <= j < |cs| ==> !cs[j].token) ==> r == q
    {
      var i := 0;
      while i < |cs|
        invariant 0 <= i <= |cs| && forall j :: 0 <= j < i ==> !cs[j].token
      {
        if cs[i].token {
          return FORCED;
        }
        i := i + 1;
      }
      return q;
    }

    method AnnounceQuorum(k: nat, q: M.Quorum)
      modifies this`published, this`publisher
      ensures View() == Published(old(View()), k, q)
      ensures (exists j :: 0 <= j < |cs| && cs[j].token) ==> published == M.Quorum(false, false)
      ensures (forall j :: 0 <= j < |cs| ==> !cs[j].token) ==> published == q
    {
      var newval := ReportedStatus(q);
      if newval != published {
        published := newval;
      }
      publisher := k;
    }

    method NewController()
      requires Enabled(View(), Construct)
      modifies this
      ensures View() == Apply(old(View()), Construct)
    {
      publisher := |cs|;
      cs := cs + [Controller(Waiting, true, None, None)];
      made := true;
      if published != FORCED {
        published := FORCED;
      }
    }

    /** Hand the current controller off to the new one, or start the first. */
    method StartMaster()
      requires Inv(View()) && Enabled(View(), Link)
      modifies this`cs, this`made, this`cur
      ensures View() == Apply(old(View()), Link)
      ensures |cs| == |old(cs)| && cur == Some(|cs| - 1)
      ensures old(cur).None? ==> cs[|cs| - 1].phase.Started?
      ensures old(cur).Some? ==> cs[old(cur).value] == old(cs)[old(cur).value].(handoff := Some(|cs| - 1))
      ensures forall k :: 0 <= k < |cs| - 1 && old(cur) != Some(k) ==> cs[k] == old(cs)[k]
    {
      var newest := |cs| - 1;
      made := false;
      if cur.Some? {
        cs := cs[cur.value := cs[cur.value].(handoff := Some(newest))];
        cur := Some(newest);
        return;
      }
      cur := Some(newest);
      cs := cs[newest := cs[newest].(phase := Started)];
    }

    method RunController(k: nat)
      requires Enabled(View(), Run(k))
      modifies this`cs, this`published, this`publisher
      ensures View() == Apply(old(View()), Run(k))
      ensures published == M.Quorum(false, false) && cs == old(cs)[k := old(cs)[k].(phase := Running, token := false)]
    {
      AnnounceQuorum(k, FORCED);
      cs := cs[k := cs[k].(phase := Running, token := false)];
    }

    method DispatchDoHandoff(k: nat)
      requires Enabled(View(), TakeHandoff(k))
      modifies this`cs
      ensures View() == Apply(old(View()), TakeHandoff(k))
      ensures cs == old(cs)[k := old(cs)[k].(phase := Stopping, next := old(cs)[k].handoff)]
    {
      cs := cs[k := cs[k].(next := cs[k].handoff)];
      cs := cs[k := cs[k].(phase := Stopping)];
    }

    method DestroyController(k: nat)
      requires Inv(View()) && Enabled(View(), Destroy(k))
      modifies this`cs
      ensures View() == Apply(old(View()), Destroy(k))
      ensures |cs| == |old(cs)| && cs[k].phase.Destroyed? && !cs[k].token
      ensures forall j :: 0 <= j < |cs| && j != k ==>
        cs[j] == if old(cs)[k].next == Some(j) then old(cs)[j].(phase := Started) else old(cs)[j]
    {
      assert ControllerOk(View(), k);
      var next := cs[k].next;
      cs := cs[k := cs[k].(phase := Destroyed, token := false)];
      if next.Some? {
        cs := cs[next.value := cs[next.value].(phase := Started)];
      }
    }
  }
}
