/**
 The window of GET requests: a client sends no more at a time than the server
 admits, and keeps the rest in a queue of its own.
 */
module GetWindow {
  import opened Stores

  /** queue: not sent yet. reqs: not answered yet. pending: the client's count of those it sent. */
  datatype Client = Client(queue: seq<Uuid>, reqs: set<Uuid>, pending: nat, nextUuid: Uuid)

  /** waiting: received and not answered. count: the server's count of those. */
  datatype Server = Server(waiting: seq<Uuid>, count: nat)

  datatype Net = Net(client: Client, up: seq<Uuid>, down: seq<Uuid>, server: Server)

  datatype Action =
    | Get
    | ServerTakes(refuse: bool)
    | Drain(ready: set<Uuid>)
    | ClientTakes

  const START := Net(Client([], {}, 0, 0), [], [], Server([], 0))

  predicate Enabled(n: Net, a: Action) {
    match a
    case Get => true
    case ServerTakes(_) => n.up != []
    case Drain(_) => true
    case ClientTakes => n.down != []
  }

  // ------------------------------------------------------------ client and server

  /** How many queued requests the window has room for. */
  function Room(queue: seq<Uuid>, pending: nat, maxgets: nat): nat {
    if pending >= maxgets then 0 else if |queue| < maxgets - pending then |queue| else maxgets - pending
  }

  /** Fill the window from the front of the queue. */
  function Filled(c: Client, maxgets: nat): (Client, seq<Uuid>) {
    var k := Room(c.queue, c.pending, maxgets);
    (c.(queue := c.queue[k..], pending := c.pending + k), c.queue[..k])
  }

  function Queued(c: Client): Client {
    c.(queue := c.queue + [c.nextUuid], reqs := c.reqs + {c.nextUuid}, nextUuid := c.nextUuid + 1)
  }

  /** A reply to a request the client does not know changes nothing. */
  function Answered(c: Client, u: Uuid): Client {
    if u in c.reqs && c.pending > 0 then c.(reqs := c.reqs - {u}, pending := c.pending - 1) else c
  }

  /** The requests that are not ready, and those that are, each in order. */
  function NotReady(waiting: seq<Uuid>, ready: set<Uuid>): seq<Uuid> {
    if waiting == [] then []
    else if waiting[0] in ready then NotReady(waiting[1..], ready)
    else [waiting[0]] + NotReady(waiting[1..], ready)
  }

  function Ready(waiting: seq<Uuid>, ready: set<Uuid>): seq<Uuid> {
    if waiting == [] then []
    else if waiting[0] in ready then [waiting[0]] + Ready(waiting[1..], ready)
    else Ready(waiting[1..], ready)
  }

  function Drained(s: Server, ready: set<Uuid>): (Server, seq<Uuid>) {
    var done := Ready(s.waiting, ready);
    (Server(NotReady(s.waiting, ready), if s.count >= |done| then s.count - |done| else 0), done)
  }

  /** None: the server found more requests waiting than it admits. */
  function Step(n: Net, a: Action, maxgets: nat): Option<Net>
    requires Enabled(n, a)
  {
    match a
    case Get =>
      var (c, sent) := Filled(Queued(n.client), maxgets);
      Some(n.(client := c, up := n.up + sent))
    case ServerTakes(refuse) =>
      var u := n.up[0];
      if refuse then Some(n.(up := n.up[1..], down := n.down + [u]))
      else if n.server.count + 1 > maxgets then None
      else Some(n.(up := n.up[1..], server := Server(n.server.waiting + [u], n.server.count + 1)))
    case Drain(ready) =>
      var (s, done) := Drained(n.server, ready);
      Some(n.(server := s, down := n.down + done))
    case ClientTakes =>
      var u := n.down[0];
      var (c, sent) := if u in n.client.reqs then Filled(Answered(n.client, u), maxgets) else (n.client, []);
      Some(n.(client := c, up := n.up + sent, down := n.down[1..]))
  }

  ghost predicate Runs(n: Net, acts: seq<Action>, n2: Net, maxgets: nat)
    decreases |acts|
  {
    if acts == [] then n2 == n
    else Enabled(n, acts[0]) && Step(n, acts[0], maxgets).Some? && Runs(Step(n, acts[0], maxgets).value, acts[1..], n2, maxgets)
  }

  // ------------------------------------------------------------ what is always true

  /** Every request not answered is in exactly one place. */
  ghost predicate Everywhere(n: Net) {
    && multiset(n.client.queue) + multiset(n.up) + multiset(n.server.waiting) + multiset(n.down) == multiset(n.client.reqs)
    && forall u :: u in n.client.reqs ==> u < n.client.nextUuid
  }

  predicate Counts(n: Net, maxgets: nat) {
    && n.client.pending == |n.up| + |n.server.waiting| + |n.down|
    && n.server.count == |n.server.waiting|
    && n.client.pending <= maxgets
    && (n.client.queue != [] ==> n.client.pending == maxgets)
  }

  ghost predicate Inv(n: Net, maxgets: nat) {
    Everywhere(n) && Counts(n, maxgets)
  }

  lemma {:induction false} DrainSplits(waiting: seq<Uuid>, ready: set<Uuid>)
    ensures multiset(NotReady(waiting, ready)) + multiset(Ready(waiting, ready)) == multiset(waiting)
    ensures |NotReady(waiting, ready)| + |Ready(waiting, ready)| == |waiting|
  {
    if waiting != [] {
      DrainSplits(waiting[1..], ready);
      assert waiting == [waiting[0]] + waiting[1..];
    }
  }

  lemma FillKeeps(n: Net, maxgets: nat)
    requires Everywhere(n) && n.client.pending == |n.up| + |n.server.waiting| + |n.down|
    requires n.server.count == |n.server.waiting| && n.client.pending <= maxgets
    ensures var (c, sent) := Filled(n.client, maxgets); Inv(n.(client := c, up := n.up + sent), maxgets)
  {
    var k := Room(n.client.queue, n.client.pending, maxgets);
    assert n.client.queue == n.client.queue[..k] + n.client.queue[k..];
  }

  lemma GetKeeps(n: Net, maxgets: nat)
    requires Inv(n, maxgets)
    ensures Inv(Step(n, Get, maxgets).value, maxgets)
  {
    var c := n.client;
    assert c.nextUuid !in c.reqs;
    assert multiset(c.reqs + {c.nextUuid}) == multiset(c.reqs) + multiset{c.nextUuid};
    FillKeeps(n.(client := Queued(c)), maxgets);
  }

  lemma ServerKeeps(n: Net, refuse: bool, maxgets: nat)
    requires Inv(n, maxgets) && n.up != []
    ensures Step(n, ServerTakes(refuse), maxgets).Some? && Inv(Step(n, ServerTakes(refuse), maxgets).value, maxgets)
  {
    assert n.up == [n.up[0]] + n.up[1..];
  }

  lemma DrainKeeps(n: Net, ready: set<Uuid>, maxgets: nat)
    requires Inv(n, maxgets)
    ensures Inv(Step(n, Drain(ready), maxgets).value, maxgets)
  {
    DrainSplits(n.server.waiting, ready);
  }

  /** Every reply is to a request the client knows. */
  lemma ReplyIsKnown(n: Net, maxgets: nat)
    requires Inv(n, maxgets) && n.down != []
    ensures n.down[0] in n.client.reqs && n.client.pending > 0
  {
    assert n.down[0] in multiset(n.down);
    assert n.down[0] in multiset(n.client.reqs);
  }

  lemma CancelOne(a: multiset<Uuid>, b: multiset<Uuid>, u: Uuid)
    requires a + multiset{u} == b + multiset{u}
    ensures a == b
  {
    assert a == a + multiset{u} - multiset{u} && b == b + multiset{u} - multiset{u};
  }

  lemma ClientKeeps(n: Net, maxgets: nat)
    requires Inv(n, maxgets) && n.down != []
    ensures Inv(Step(n, ClientTakes, maxgets).value, maxgets)
  {
    var u := n.down[0];
    ReplyIsKnown(n, maxgets);
    assert n.down == [u] + n.down[1..];
    var before := multiset(n.client.queue) + multiset(n.up) + multiset(n.server.waiting);
    assert multiset(n.client.reqs) == multiset(n.client.reqs - {u}) + multiset{u};
    assert before + multiset(n.down) == before + multiset(n.down[1..]) + multiset{u};
    CancelOne(before + multiset(n.down[1..]), multiset(n.client.reqs - {u}), u);
    FillKeeps(n.(client := Answered(n.client, u), down := n.down[1..]), maxgets);
  }

  lemma StartHolds(maxgets: nat)
    ensures Inv(START, maxgets)
  {
  }

  lemma StepKeeps(n: Net, a: Action, maxgets: nat)
    requires Inv(n, maxgets) && Enabled(n, a)
    ensures Step(n, a, maxgets).Some? && Inv(Step(n, a, maxgets).value, maxgets)
  {
    hide Inv;
    match a
    case Get => GetKeeps(n, maxgets);
    case ServerTakes(refuse) => ServerKeeps(n, refuse, maxgets);
    case Drain(ready) => DrainKeeps(n, ready, maxgets);
    case ClientTakes => ClientKeeps(n, maxgets);
  }

  lemma {:induction false} RunKeeps(n: Net, acts: seq<Action>, n2: Net, maxgets: nat)
    requires Inv(n, maxgets) && Runs(n, acts, n2, maxgets)
    ensures Inv(n2, maxgets)
    decreases |acts|
  {
    hide Inv, Step;
    if acts != [] {
      StepKeeps(n, acts[0], maxgets);
      RunKeeps(Step(n, acts[0], maxgets).value, acts[1..], n2, maxgets);
    }
  }

  lemma {:induction false} CardSeq(s: seq<Uuid>)
    ensures |multiset(s)| == |s|
  {
    if s != [] {
      CardSeq(s[1..]);
      assert s == [s[0]] + s[1..];
    }
  }

  /** Every request not answered is counted once. */
  lemma PlacesCount(n: Net)
    requires Everywhere(n)
    ensures |n.client.reqs| == |n.client.queue| + |n.up| + |n.server.waiting| + |n.down|
  {
    CardSeq(n.client.queue);
    CardSeq(n.up);
    CardSeq(n.server.waiting);
    CardSeq(n.down);
    assert |multiset(n.client.reqs)| == |n.client.reqs|;
  }

  /**
   The client's count of pending requests is always the number of requests on
   their way, waiting at the server, and of replies on their way, and never
   more than the window; requests are queued only while the window is full.
   */
  lemma CreditIsConserved(acts: seq<Action>, n: Net, maxgets: nat)
    requires Runs(START, acts, n, maxgets)
    ensures n.client.pending == |n.up| + |n.server.waiting| + |n.down| && n.client.pending <= maxgets
    ensures n.client.queue != [] ==> n.client.pending == maxgets
    ensures |n.client.reqs| == |n.client.queue| + n.client.pending
  {
    hide Runs, Step;
    StartHolds(maxgets);
    RunKeeps(START, acts, n, maxgets);
    PlacesCount(n);
  }

  /** The server's limit is never exceeded, and every reply is to a request the client still waits for. */
  lemma LimitNeverExceeded(acts: seq<Action>, n: Net, a: Action, maxgets: nat)
    requires Runs(START, acts, n, maxgets) && Enabled(n, a)
    ensures Step(n, a, maxgets).Some?
    ensures a.ClientTakes? ==> n.down[0] in n.client.reqs
  {
    hide Runs, Step, Inv;
    StartHolds(maxgets);
    RunKeeps(START, acts, n, maxgets);
    StepKeeps(n, a, maxgets);
    if a.ClientTakes? {
      ReplyIsKnown(n, maxgets);
    }
  }

  // ------------------------------------------------------------ which requests are answered

  /** s is what is left of t when some of its elements are taken out. */
  ghost predicate OrderKept(s: seq<Uuid>, t: seq<Uuid>) {
    exists at: seq<nat> :: Places(at, s, t)
  }

  predicate Places(at: seq<nat>, s: seq<Uuid>, t: seq<Uuid>) {
    && |at| == |s| && (forall i :: 0 <= i < |at| ==> at[i] < |t| && t[at[i]] == s[i])
    && forall i, j :: 0 <= i < j < |at| ==> at[i] < at[j]
  }

  /** One more in front, which s has or not. */
  lemma OrderKeptOneMore(s: seq<Uuid>, t: seq<Uuid>, u: Uuid)
    requires OrderKept(s, t)
    ensures OrderKept(s, [u] + t) && OrderKept([u] + s, [u] + t)
  {
    var at: seq<nat> :| Places(at, s, t);
    var later: seq<nat> := seq(|at|, i requires 0 <= i < |at| => at[i] + 1);
    assert Places(later, s, [u] + t);
    assert Places([0] + later, [u] + s, [u] + t);
  }

  /**
   Of the waiting requests exactly the ready ones are answered and exactly the
   others go on waiting, each as often as it was there, both in their order.
   */
  lemma DrainIs(waiting: seq<Uuid>, ready: set<Uuid>)
    ensures var done, left := Ready(waiting, ready), NotReady(waiting, ready);
      && OrderKept(done, waiting) && OrderKept(left, waiting)
      && (forall u :: u in ready ==> multiset(done)[u] == multiset(waiting)[u] && u !in left)
      && (forall u :: u !in ready ==> multiset(left)[u] == multiset(waiting)[u] && u !in done)
  {
    DrainOrder(waiting, ready);
    forall u
      ensures u in ready ==> multiset(Ready(waiting, ready))[u] == multiset(waiting)[u] && u !in NotReady(waiting, ready)
      ensures u !in ready ==> multiset(NotReady(waiting, ready))[u] == multiset(waiting)[u] && u !in Ready(waiting, ready)
    {
      DrainCounts(waiting, ready, u);
    }
  }

  lemma {:induction false} DrainOrder(waiting: seq<Uuid>, ready: set<Uuid>)
    ensures OrderKept(Ready(waiting, ready), waiting) && OrderKept(NotReady(waiting, ready), waiting)
  {
    if waiting == [] {
      assert Places([], [], []);
    } else {
      DrainOrder(waiting[1..], ready);
      assert waiting == [waiting[0]] + waiting[1..];
      OrderKeptOneMore(Ready(waiting[1..], ready), waiting[1..], waiting[0]);
      OrderKeptOneMore(NotReady(waiting[1..], ready), waiting[1..], waiting[0]);
      hide OrderKept;
    }
  }

  lemma {:induction false} DrainCounts(waiting: seq<Uuid>, ready: set<Uuid>, u: Uuid)
    ensures u in ready ==> multiset(Ready(waiting, ready))[u] == multiset(waiting)[u] && u !in NotReady(waiting, ready)
    ensures u !in ready ==> multiset(NotReady(waiting, ready))[u] == multiset(waiting)[u] && u !in Ready(waiting, ready)
  {
    if waiting != [] {
      DrainCounts(waiting[1..], ready, u);
      assert waiting == [waiting[0]] + waiting[1..];
    }
  }

  // ------------------------------------------------------------ the two ends

  class GetClient {
    var getqueue: seq<Uuid>
    var reqs: set<Uuid>
    var pendingCnt: nat
    var nextUuid: Uuid
    var written: seq<Uuid>

    ghost function View(): Client
      reads this
    {
      Client(getqueue, reqs, pendingCnt, nextUuid)
    }

    constructor ()
      ensures View() == START.client && written == []
    {
      getqueue, reqs, pendingCnt, nextUuid, written := [], {}, 0, 0, [];
    }

    method SendGetRequests(maxgets: nat)
      modifies this`getqueue, this`pendingCnt, this`written
      ensures View() == Filled(old(View()), maxgets).0
      ensures written == old(written) + Filled(old(View()), maxgets).1
      ensures written + getqueue == old(written) + old(getqueue)
      ensures pendingCnt - old(pendingCnt) == |written| - |old(written)|
      ensures getqueue == [] || pendingCnt >= maxgets
      ensures pendingCnt <= maxgets || pendingCnt == old(pendingCnt)
    {
      ghost var was, k, sent := getqueue, Room(getqueue, pendingCnt, maxgets), 0;
      assert was[0..] == was && written == old(written) + was[..0];
      while getqueue != [] && pendingCnt < maxgets
        invariant 0 <= sent <= k <= |was| && getqueue == was[sent..] && pendingCnt == old(pendingCnt) + sent
        invariant written == old(written) + was[..sent]
        decreases |getqueue|
      {
        assert was[..sent + 1] == was[..sent] + [was[sent]];
        assert was[sent..][1..] == was[sent + 1..];
        written := written + [getqueue[0]];
        getqueue := getqueue[1..];
        pendingCnt := pendingCnt + 1;
        sent := sent + 1;
      }
    }

    /** A request for too many objects, or for one whose name is too long, is refused here. */
    method DispatchGet(objects: seq<Name>, maxobjects: nat, maxnamesize: nat, maxgets: nat) returns (refused: bool)
      modifies this
      ensures refused <==> |objects| > maxobjects || exists i :: 0 <= i < |objects| && |objects[i]| > maxnamesize
      ensures refused ==> View() == old(View()) && written == old(written)
      ensures !refused ==>
        && View() == Filled(Queued(old(View())), maxgets).0
        && written == old(written) + Filled(Queued(old(View())), maxgets).1
      ensures !refused ==>
        && reqs == old(reqs) + {old(nextUuid)} && written + getqueue == old(written) + old(getqueue) + [old(nextUuid)]
        && pendingCnt - old(pendingCnt) == |written| - |old(written)| && (getqueue == [] || pendingCnt >= maxgets)
    {
      if |objects| > maxobjects {
        return true;
      }
      var i := 0;
      while i < |objects|
        invariant 0 <= i <= |objects| && forall j :: 0 <= j < i ==> |objects[j]| <= maxnamesize
      {
        if |objects[i]| > maxnamesize {
          return true;
        }
        i := i + 1;
      }
      reqs := reqs + {nextUuid};
      getqueue := getqueue + [nextUuid];
      nextUuid := nextUuid + 1;
      SendGetRequests(maxgets);
      return false;
    }

    method GetReply(u: Uuid, maxgets: nat)
      requires u in reqs ==> pendingCnt > 0
      modifies this
      ensures if u in old(reqs) then
          View() == Filled(Answered(old(View()), u), maxgets).0
        else View() == old(View())
      ensures written == old(written) + if u in old(reqs) then Filled(Answered(old(View()), u), maxgets).1 else []
      ensures u in old(reqs) ==>
        && reqs == old(reqs) - {u} && written + getqueue == old(written) + old(getqueue)
        && pendingCnt - (old(pendingCnt) - 1) == |written| - |old(written)| && (getqueue == [] || pendingCnt >= maxgets)
    {
      if u in reqs {
        reqs := reqs - {u};
        pendingCnt := pendingCnt - 1;
        SendGetRequests(maxgets);
      }
    }
  }

  class GetServer {
    var getqueue: seq<Uuid>
    var getqueueCnt: nat

    ghost function View(): Server
      reads this
    {
      Server(getqueue, getqueueCnt)
    }

    constructor ()
      ensures View() == START.server
    {
      getqueue, getqueueCnt := [], 0;
    }

    /** Within the limit the request waits; beyond it false stands for the exception. */
    method UserGetUuids(u: Uuid, maxgets: nat) returns (ok: bool)
      modifies this
      ensures View() == Server(old(getqueue) + [u], old(getqueueCnt) + 1)
      ensures ok <==> old(getqueueCnt) < maxgets
    {
      getqueue := getqueue + [u];
      getqueueCnt := getqueueCnt + 1;
      return getqueueCnt <= maxgets;
    }

    /** Answer the requests whose objects are locked by now, leaving the others in order. */
    method DrainReady(ready: set<Uuid>) returns (acks: seq<Uuid>)
      requires getqueueCnt == |getqueue|
      modifies this
      ensures View() == Drained(old(View()), ready).0 && acks == Drained(old(View()), ready).1
      ensures getqueueCnt == |getqueue| && OrderKept(acks, old(getqueue)) && OrderKept(getqueue, old(getqueue))
      ensures forall u :: u in ready ==> multiset(acks)[u] == multiset(old(getqueue))[u] && u !in getqueue
      ensures forall u :: u !in ready ==> multiset(getqueue)[u] == multiset(old(getqueue))[u] && u !in acks
    {
      DrainIs(getqueue, ready);
      acks := TakeReady(ready);
    }

    method TakeReady(ready: set<Uuid>) returns (acks: seq<Uuid>)
      requires getqueueCnt == |getqueue|
      modifies this
      ensures getqueue == NotReady(old(getqueue), ready) && acks == Ready(old(getqueue), ready)
      ensures getqueueCnt == |getqueue| == old(getqueueCnt) - |acks|
    {
      acks := [];
      ghost var was, kept, rest := getqueue, [], getqueue;
      var b := 0;
      DrainSplits(was, ready);
      assert kept + rest == was && kept + NotReady(was, ready) == NotReady(was, ready);
      assert acks + Ready(was, ready) == Ready(was, ready);
      while b < |getqueue|
        invariant getqueue == kept + rest && b == |kept|
        invariant kept + NotReady(rest, ready) == NotReady(was, ready)
        invariant acks + Ready(rest, ready) == Ready(was, ready)
        invariant getqueueCnt == |getqueue| && |acks| + |getqueue| == |was|
        decreases |rest|
      {
        DrainOne(kept, rest, acks, ready);
        var u := getqueue[b];
        if u in ready {
          acks := acks + [u];
          getqueue := getqueue[..b] + getqueue[b + 1..];
          getqueueCnt := getqueueCnt - 1;
        } else {
          kept := kept + [u];
          b := b + 1;
        }
        rest := rest[1..];
      }
      assert kept + [] == kept && acks + [] == acks;
    }
  }

  /** Taking out, or passing over, the request after those that are kept. */
  lemma DrainOne(kept: seq<Uuid>, rest: seq<Uuid>, acks: seq<Uuid>, ready: set<Uuid>)
    requires rest != []
    ensures var q, b := kept + rest, |kept|;
      q[b] == rest[0] && q[..b] + q[b + 1..] == kept + rest[1..] && q == kept + [rest[0]] + rest[1..]
    ensures rest[0] in ready ==>
      && NotReady(rest, ready) == NotReady(rest[1..], ready)
      && acks + Ready(rest, ready) == acks + [rest[0]] + Ready(rest[1..], ready)
    ensures rest[0] !in ready ==>
      && Ready(rest, ready) == Ready(rest[1..], ready)
      && kept + NotReady(rest, ready) == kept + [rest[0]] + NotReady(rest[1..], ready)
  {
    Splice(kept, rest);
    if rest[0] in ready {
      Regroup(acks, rest[0], Ready(rest[1..], ready));
    } else {
      Regroup(kept, rest[0], NotReady(rest[1..], ready));
    }
  }

  lemma Splice(kept: seq<Uuid>, rest: seq<Uuid>)
    requires rest != []
    ensures var q, b := kept + rest, |kept|;
      q[b] == rest[0] && q[..b] == kept && q[b + 1..] == rest[1..] && q == kept + [rest[0]] + rest[1..]
  {
  }

  lemma Regroup(a: seq<Uuid>, u: Uuid, b: seq<Uuid>)
    ensures a + ([u] + b) == a + [u] + b
  {
  }
}
