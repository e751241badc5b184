/**
 A client multiplexes many subscribers over one subscription per name on the
 server. Requests and replies travel on a connection that keeps their order.
 */
module ClientSubscriptions {
  import opened Sets
  import opened Stores

  datatype Request = Begin(uuid: Uuid, name: Name) | End(name: Name)

  datatype Reply = BeginAck(uuid: Uuid, processed: bool) | EndAck

  /** active: who is registered for a name. waiting: who waits for the reply to the request for it. */
  datatype Client = Client(active: map<Name, seq<nat>>, waiting: map<Name, seq<nat>>, uuids: map<Uuid, Name>, nextUuid: Uuid)

  /** refused: the names whose last request the server took was refused. */
  datatype Net = Net(client: Client, up: seq<Request>, down: seq<Reply>, server: set<Name>, refused: set<Name>)

  datatype Action =
    | Subscribe(name: Name, who: nat)
    | Unsubscribe(name: Name, i: nat)
    | ServerTakes(accept: bool)
    | ClientTakes

  const START := Net(Client(map[], map[], map[], 0), [], [], {}, {})

  predicate Enabled(n: Net, a: Action) {
    match a
    case Subscribe(_, _) => true
    case Unsubscribe(name, i) => name in n.client.active && i < |n.client.active[name]|
    case ServerTakes(_) => n.up != []
    case ClientTakes => n.down != []
  }

  // ------------------------------------------------------------ the client's handlers

  /** A new subscriber joins an existing subscription or request, or has a request sent. */
  function Subscribed(c: Client, name: Name, who: nat): (Client, Option<Request>) {
    if name in c.active then (c.(active := c.active[name := c.active[name] + [who]]), None)
    else if name in c.waiting then (c.(waiting := c.waiting[name := c.waiting[name] + [who]]), None)
    else
      (c.(waiting := c.waiting[name := [who]], uuids := c.uuids[c.nextUuid := name], nextUuid := c.nextUuid + 1),
       Some(Begin(c.nextUuid, name)))
  }

  /** The last subscriber of a name ends the subscription. */
  function Unsubscribed(c: Client, name: Name, i: nat): (Client, Option<Request>)
    requires name in c.active && i < |c.active[name]|
  {
    var left := c.active[name][..i] + c.active[name][i + 1..];
    if left == [] then (c.(active := c.active - {name}), Some(End(name)))
    else (c.(active := c.active[name := left]), None)
  }

  /** An acknowledgement the client has no record of is an error. */
  predicate Known(c: Client, uuid: Uuid) {
    uuid in c.uuids && c.uuids[uuid] in c.waiting
  }

  /** All who wait are registered, whether or not the server agreed. */
  function Acknowledged(c: Client, uuid: Uuid): Client
    requires Known(c, uuid)
  {
    var name := c.uuids[uuid];
    c.(active := c.active[name := (if name in c.active then c.active[name] else []) + c.waiting[name]],
       waiting := c.waiting - {name}, uuids := c.uuids - {uuid})
  }

  // ------------------------------------------------------------ client and server

  function Sent(up: seq<Request>, r: Option<Request>): seq<Request> {
    if r.None? then up else up + [r.value]
  }

  /** The server may refuse any request, and must refuse one it already has a subscription for. */
  function Served(n: Net, accept: bool): Net
    requires n.up != []
  {
    var n1 := n.(up := n.up[1..]);
    match n.up[0]
    case Begin(uuid, name) =>
      if accept && name !in n.server
      then n1.(down := n.down + [BeginAck(uuid, true)], server := n.server + {name}, refused := n.refused - {name})
      else n1.(down := n.down + [BeginAck(uuid, false)], refused := n.refused + {name})
    case End(name) => n1.(down := n.down + [EndAck], server := n.server - {name}, refused := n.refused - {name})
  }

  /** None: the client found an acknowledgement it cannot place. */
  function Step(n: Net, a: Action): Option<Net>
    requires Enabled(n, a)
  {
    match a
    case Subscribe(name, who) =>
      var (c, r) := Subscribed(n.client, name, who);
      Some(n.(client := c, up := Sent(n.up, r)))
    case Unsubscribe(name, i) =>
      var (c, r) := Unsubscribed(n.client, name, i);
      Some(n.(client := c, up := Sent(n.up, r)))
    case ServerTakes(accept) => Some(Served(n, accept))
    case ClientTakes =>
      match n.down[0]
      case EndAck => Some(n.(down := n.down[1..]))
      case BeginAck(uuid, _) =>
        if !Known(n.client, uuid) then None
        else Some(n.(client := Acknowledged(n.client, uuid), down := n.down[1..]))
  }

  ghost predicate Runs(n: Net, acts: seq<Action>, n2: Net)
    decreases |acts|
  {
    if acts == [] then n2 == n
    else Enabled(n, acts[0]) && Step(n, acts[0]).Some? && Runs(Step(n, acts[0]).value, acts[1..], n2)
  }

  // ------------------------------------------------------------ what is in flight

  function UpUuids(up: seq<Request>): seq<Uuid> {
    if up == [] then []
    else if up[0].Begin? then [up[0].uuid] + UpUuids(up[1..])
    else UpUuids(up[1..])
  }

  function DownUuids(down: seq<Reply>): seq<Uuid> {
    if down == [] then []
    else if down[0].BeginAck? then [down[0].uuid] + DownUuids(down[1..])
    else DownUuids(down[1..])
  }

  /** The requests not acknowledged yet, oldest first. */
  function Outstanding(n: Net): seq<Uuid> {
    DownUuids(n.down) + UpUuids(n.up)
  }

  /** The server's subscriptions once all requests in flight are accepted. */
  function Future(server: set<Name>, up: seq<Request>): set<Name>
    decreases |up|
  {
    if up == [] then server
    else if up[0].Begin? then Future(server + {up[0].name}, up[1..])
    else Future(server - {up[0].name}, up[1..])
  }

  /** No request is for a name the server would have by then. */
  predicate NeverTwice(server: set<Name>, up: seq<Request>)
    decreases |up|
  {
    up == [] ||
    (if up[0].Begin? then up[0].name !in server && NeverTwice(server + {up[0].name}, up[1..])
     else NeverTwice(server - {up[0].name}, up[1..]))
  }

  lemma {:induction false} UpAppend(up: seq<Request>, r: Request)
    ensures UpUuids(up + [r]) == if r.Begin? then UpUuids(up) + [r.uuid] else UpUuids(up)
  {
    if up == [] {
      assert (up + [r])[1..] == [];
    } else {
      assert (up + [r])[1..] == up[1..] + [r];
      UpAppend(up[1..], r);
    }
  }

  lemma {:induction false} DownAppend(down: seq<Reply>, r: Reply)
    ensures DownUuids(down + [r]) == if r.BeginAck? then DownUuids(down) + [r.uuid] else DownUuids(down)
  {
    if down == [] {
      assert (down + [r])[1..] == [];
    } else {
      assert (down + [r])[1..] == down[1..] + [r];
      DownAppend(down[1..], r);
    }
  }

  lemma {:induction false} FutureAppend(server: set<Name>, up: seq<Request>, r: Request)
    ensures Future(server, up + [r])
         == if r.Begin? then Future(server, up) + {r.name} else Future(server, up) - {r.name}
    ensures NeverTwice(server, up + [r])
       <==> NeverTwice(server, up) && (r.Begin? ==> r.name !in Future(server, up))
    decreases |up|
  {
    if up == [] {
      assert (up + [r])[1..] == [];
    } else {
      assert (up + [r])[1..] == up[1..] + [r];
      FutureAppend(if up[0].Begin? then server + {up[0].name} else server - {up[0].name}, up[1..], r);
    }
  }

  /** With fewer subscriptions now there are no more later. */
  lemma {:induction false} FutureMonotone(few: set<Name>, many: set<Name>, up: seq<Request>)
    requires few <= many
    ensures Future(few, up) <= Future(many, up)
    ensures NeverTwice(many, up) ==> NeverTwice(few, up)
    decreases |up|
  {
    if up != [] {
      if up[0].Begin? {
        FutureMonotone(few + {up[0].name}, many + {up[0].name}, up[1..]);
      } else {
        FutureMonotone(few - {up[0].name}, many - {up[0].name}, up[1..]);
      }
    }
  }

  /** A request for the name is on its way to the server. */
  predicate Asked(up: seq<Request>, name: Name) {
    exists i :: 0 <= i < |up| && up[i].name == name
  }

  lemma AskedFirst(up: seq<Request>, name: Name)
    requires up != []
    ensures Asked(up, name) <==> up[0].name == name || Asked(up[1..], name)
  {
    if Asked(up, name) && up[0].name != name {
      var i :| 0 <= i < |up| && up[i].name == name;
      assert up[1..][i - 1].name == name;
    }
    if i :| 0 <= i < |up[1..]| && up[1..][i].name == name {
      assert up[i + 1].name == name;
    }
  }

  lemma AskedLast(up: seq<Request>, r: Request, name: Name)
    ensures Asked(up + [r], name) <==> r.name == name || Asked(up, name)
  {
    var up2 := up + [r];
    assert up2[|up|] == r;
    if i :| 0 <= i < |up| && up[i].name == name {
      assert up2[i].name == name;
    }
  }

  /** Only the requests for a name on their way decide about it, or else what the server has. */
  lemma {:induction false} FutureOf(server: set<Name>, server2: set<Name>, up: seq<Request>, name: Name)
    ensures Asked(up, name) ==> (name in Future(server, up) <==> name in Future(server2, up))
    ensures !Asked(up, name) ==> (name in Future(server, up) <==> name in server)
    decreases |up|
  {
    if up != [] {
      AskedFirst(up, name);
      var r := up[0];
      var s, s2 := if r.Begin? then server + {r.name} else server - {r.name},
                   if r.Begin? then server2 + {r.name} else server2 - {r.name};
      FutureOf(s, s2, up[1..], name);
      FutureOf(s2, s, up[1..], name);
    }
  }

  // ------------------------------------------------------------ what is always true

  /** Requests in flight, records of them, and names waited for correspond one to one. */
  ghost predicate Records(out: seq<Uuid>, uuids: map<Uuid, Name>, waiting: set<Name>, next: Uuid) {
    && Distinct(out)
    && (forall u :: u in out <==> u in uuids)
    && (forall u :: u in uuids ==> u < next && uuids[u] in waiting)
    && (forall u, v :: u in uuids && v in uuids && uuids[u] == uuids[v] ==> u == v)
    && (forall m :: m in waiting ==> exists u :: u in uuids && uuids[u] == m)
  }

  lemma RecordsAdd(out: seq<Uuid>, uuids: map<Uuid, Name>, waiting: set<Name>, next: Uuid, name: Name)
    requires Records(out, uuids, waiting, next) && name !in waiting
    ensures Records(out + [next], uuids[next := name], waiting + {name}, next + 1)
  {
    var u2 := uuids[next := name];
    assert u2[next] == name && next !in uuids;
    assert forall u :: u in out + [next] <==> u in out || u == next;
    forall m | m in waiting + {name}
      ensures exists u :: u in u2 && u2[u] == m
    {
      if m != name {
        var u :| u in uuids && uuids[u] == m;
        assert u in u2 && u2[u] == m;
      }
    }
  }

  lemma RecordsDrop(out: seq<Uuid>, uuids: map<Uuid, Name>, waiting: set<Name>, next: Uuid)
    requires Records(out, uuids, waiting, next) && out != []
    ensures out[0] in uuids && uuids[out[0]] in waiting
    ensures Records(out[1..], uuids - {out[0]}, waiting - {uuids[out[0]]}, next)
  {
    var u0 := out[0];
    var u2 := uuids - {u0};
    assert u0 in out && out == [u0] + out[1..];
    forall u
      ensures u in out[1..] <==> u in u2
    {
      assert u in out <==> u == u0 || u in out[1..];
    }
    forall m | m in waiting - {uuids[u0]}
      ensures exists u :: u in u2 && u2[u] == m
    {
      var u :| u in uuids && uuids[u] == m;
      assert u in u2 && u2[u] == m;
    }
  }

  ghost predicate RecordsOk(n: Net) {
    Records(Outstanding(n), n.client.uuids, n.client.waiting.Keys, n.client.nextUuid)
  }

  /** Each request in flight is for the name recorded for it. */
  ghost predicate NamesOk(n: Net) {
    forall r :: r in n.up && r.Begin? ==> r.uuid in n.client.uuids && n.client.uuids[r.uuid] == r.name
  }

  /** The client's names. */
  function Wanted(c: Client): set<Name> {
    c.active.Keys + c.waiting.Keys
  }

  /** The server's refusal was the last word on the name. */
  predicate Refused(n: Net, name: Name) {
    name in n.refused && !Asked(n.up, name)
  }

  ghost predicate ServerOk(n: Net) {
    && n.client.active.Keys !! n.client.waiting.Keys
    && NeverTwice(n.server, n.up)
    && forall name :: name in Future(n.server, n.up) <==> name in Wanted(n.client) && !Refused(n, name)
  }

  predicate Peopled(c: Client) {
    && (forall m :: m in c.active ==> c.active[m] != [])
    && (forall m :: m in c.waiting ==> c.waiting[m] != [])
  }

  ghost predicate Inv(n: Net) {
    RecordsOk(n) && NamesOk(n) && ServerOk(n) && Peopled(n.client)
  }

  lemma SubscribeKeeps(n: Net, name: Name, who: nat)
    requires Inv(n)
    ensures Inv(Step(n, Subscribe(name, who)).value)
  {
    hide RecordsOk, NamesOk, ServerOk;
    var c, c2 := n.client, Subscribed(n.client, name, who).0;
    if name !in c.active && name !in c.waiting {
      JoinKeepsRecords(n, name, c2);
      JoinKeepsServer(n, name, c2);
    } else {
      assert c2.active.Keys == c.active.Keys && c2.waiting.Keys == c.waiting.Keys;
      SameNames(n, c2);
    }
  }

  lemma JoinKeepsRecords(n: Net, name: Name, c2: Client)
    requires RecordsOk(n) && NamesOk(n) && name !in n.client.waiting
    requires c2.waiting.Keys == n.client.waiting.Keys + {name} && c2.nextUuid == n.client.nextUuid + 1
    requires c2.uuids == n.client.uuids[n.client.nextUuid := name]
    ensures var n2 := n.(client := c2, up := n.up + [Begin(n.client.nextUuid, name)]); RecordsOk(n2) && NamesOk(n2)
  {
    var r := Begin(n.client.nextUuid, name);
    var n2 := n.(client := c2, up := n.up + [r]);
    RequestSent(n, r);
    RecordsAdd(Outstanding(n), n.client.uuids, n.client.waiting.Keys, n.client.nextUuid, name);
    NewIsUnknown(n);
    hide Records, UpUuids, DownUuids;
    assert Outstanding(n2) == Outstanding(n) + [n.client.nextUuid];
    assert forall q :: q in n2.up ==> q in n.up || q == r;
  }

  lemma JoinKeepsServer(n: Net, name: Name, c2: Client)
    requires ServerOk(n) && name !in n.client.active && name !in n.client.waiting
    requires c2.waiting.Keys == n.client.waiting.Keys + {name} && c2.active == n.client.active
    ensures ServerOk(n.(client := c2, up := n.up + [Begin(n.client.nextUuid, name)]))
  {
    var r := Begin(n.client.nextUuid, name);
    var n2 := n.(client := c2, up := n.up + [r]);
    FutureAppend(n.server, n.up, r);
    hide Future, NeverTwice, Asked;
    forall m
      ensures m in Future(n2.server, n2.up) <==> m in Wanted(n2.client) && !Refused(n2, m)
    {
      AskedLast(n.up, r, m);
      assert m in Future(n.server, n.up) <==> m in Wanted(n.client) && !Refused(n, m);
    }
  }

  lemma NewIsUnknown(n: Net)
    requires RecordsOk(n)
    ensures n.client.nextUuid !in n.client.uuids
  {
  }

  lemma RequestSent(n: Net, r: Request)
    ensures var o := Outstanding(n.(up := n.up + [r])); o == if r.Begin? then Outstanding(n) + [r.uuid] else Outstanding(n)
  {
    UpAppend(n.up, r);
  }

  lemma UnsubscribeKeeps(n: Net, name: Name, i: nat)
    requires Inv(n) && Enabled(n, Unsubscribe(name, i))
    ensures Inv(Step(n, Unsubscribe(name, i)).value)
  {
    hide RecordsOk, NamesOk, ServerOk;
    var left := n.client.active[name][..i] + n.client.active[name][i + 1..];
    if left == [] {
      LeaveKeepsRecords(n, name);
      LeaveKeepsServer(n, name);
    } else {
      var c2 := n.client.(active := n.client.active[name := left]);
      assert c2.active.Keys == n.client.active.Keys;
      SameNames(n, c2);
    }
  }

  lemma SameNames(n: Net, c2: Client)
    requires RecordsOk(n) && NamesOk(n) && ServerOk(n)
    requires c2.uuids == n.client.uuids && c2.nextUuid == n.client.nextUuid
    requires c2.active.Keys == n.client.active.Keys && c2.waiting.Keys == n.client.waiting.Keys
    ensures var n2 := n.(client := c2); RecordsOk(n2) && NamesOk(n2) && ServerOk(n2)
  {
    hide Records;
    assert Outstanding(n.(client := c2)) == Outstanding(n);
  }

  lemma LeaveKeepsRecords(n: Net, name: Name)
    requires RecordsOk(n) && NamesOk(n)
    ensures var n2 := n.(client := n.client.(active := n.client.active - {name}), up := n.up + [End(name)]);
      RecordsOk(n2) && NamesOk(n2)
  {
    hide Records;
    var n2 := n.(client := n.client.(active := n.client.active - {name}), up := n.up + [End(name)]);
    RequestSent(n, End(name));
    hide UpUuids, DownUuids;
    assert Outstanding(n2) == Outstanding(n);
    assert forall q :: q in n2.up ==> q in n.up || q == End(name);
  }

  lemma LeaveKeepsServer(n: Net, name: Name)
    requires ServerOk(n) && name in n.client.active
    ensures ServerOk(n.(client := n.client.(active := n.client.active - {name}), up := n.up + [End(name)]))
  {
    var n2 := n.(client := n.client.(active := n.client.active - {name}), up := n.up + [End(name)]);
    FutureAppend(n.server, n.up, End(name));
    hide Future, NeverTwice, Asked;
    assert n2.client.active.Keys == n.client.active.Keys - {name};
    forall m
      ensures m in Future(n2.server, n2.up) <==> m in Wanted(n2.client) && !Refused(n2, m)
    {
      AskedLast(n.up, End(name), m);
      assert m in Future(n.server, n.up) <==> m in Wanted(n.client) && !Refused(n, m);
    }
  }

  lemma ServeKeepsRecords(n: Net, accept: bool)
    requires Inv(n) && n.up != []
    ensures RecordsOk(Served(n, accept)) && NamesOk(Served(n, accept))
  {
    hide Records;
    var n2 := Served(n, accept);
    var r := n2.down[|n.down|];
    DownAppend(n.down, r);
    assert n.up == [n.up[0]] + n.up[1..];
    assert Outstanding(n2) == Outstanding(n);
    assert forall q :: q in n2.up ==> q in n.up;
  }

  /** What the server answers changes what it will have of this name only if no request for it follows. */
  lemma ServeName(n: Net, accept: bool, name: Name)
    requires ServerOk(n) && n.up != []
    ensures var n2 := Served(n, accept);
      name in Future(n2.server, n2.up) <==> name in Wanted(n2.client) && !Refused(n2, name)
  {
    var n2, q := Served(n, accept), n.up[0];
    var taken := if q.Begin? then n.server + {q.name} else n.server - {q.name};
    assert Future(n.server, n.up) == Future(taken, n.up[1..]);
    AskedFirst(n.up, name);
    FutureOf(taken, n2.server, n.up[1..], name);
    FutureOf(n2.server, taken, n.up[1..], name);
    assert name in Future(n.server, n.up) <==> name in Wanted(n.client) && !Refused(n, name);
    hide Future, Asked;
  }

  lemma ServeKeepsServer(n: Net, accept: bool)
    requires ServerOk(n) && n.up != []
    ensures ServerOk(Served(n, accept))
  {
    if n.up[0].Begin? {
      FutureMonotone(n.server, n.server + {n.up[0].name}, n.up[1..]);
    }
    hide Future, Refused;
    forall name
      ensures var n2 := Served(n, accept);
        name in Future(n2.server, n2.up) <==> name in Wanted(n2.client) && !Refused(n2, name)
    {
      ServeName(n, accept, name);
    }
  }

  lemma AcknowledgeKeeps(n: Net)
    requires Inv(n) && n.down != []
    ensures Step(n, ClientTakes).Some? && Inv(Step(n, ClientTakes).value)
  {
    hide RecordsOk, NamesOk, ServerOk, Peopled, Acknowledged, Known;
    if n.down[0].BeginAck? {
      var u0 := n.down[0].uuid;
      AcknowledgeRecords(n, u0);
      AcknowledgeServer(n, u0);
      AcknowledgePeopled(n.client, u0);
    } else {
      EndAckRecords(n);
    }
  }

  lemma AcknowledgePeopled(c: Client, u0: Uuid)
    requires Peopled(c) && Known(c, u0)
    ensures Peopled(Acknowledged(c, u0))
  {
  }

  lemma EndAckRecords(n: Net)
    requires RecordsOk(n) && NamesOk(n) && ServerOk(n) && n.down != [] && n.down[0].EndAck?
    ensures var n2 := n.(down := n.down[1..]); RecordsOk(n2) && NamesOk(n2) && ServerOk(n2)
  {
    hide Records;
    assert Outstanding(n.(down := n.down[1..])) == Outstanding(n);
  }

  lemma AcknowledgeRecords(n: Net, u0: Uuid)
    requires RecordsOk(n) && NamesOk(n) && n.down != [] && n.down[0].BeginAck? && n.down[0].uuid == u0
    ensures Known(n.client, u0)
    ensures var n2 := n.(client := Acknowledged(n.client, u0), down := n.down[1..]); RecordsOk(n2) && NamesOk(n2)
  {
    AcknowledgeNames(n, u0);
    assert Outstanding(n)[0] == u0;
    RecordsDrop(Outstanding(n), n.client.uuids, n.client.waiting.Keys, n.client.nextUuid);
    assert Outstanding(n.(down := n.down[1..])) == Outstanding(n)[1..];
    hide Records, DownUuids, UpUuids;
    assert Acknowledged(n.client, u0).waiting.Keys == n.client.waiting.Keys - {n.client.uuids[u0]};
  }

  lemma AcknowledgeServer(n: Net, u0: Uuid)
    requires ServerOk(n) && Known(n.client, u0) && n.down != []
    ensures ServerOk(n.(client := Acknowledged(n.client, u0), down := n.down[1..]))
  {
    hide Future, NeverTwice;
    var name, c2 := n.client.uuids[u0], Acknowledged(n.client, u0);
    assert c2.waiting.Keys == n.client.waiting.Keys - {name};
    assert c2.active.Keys == n.client.active.Keys + {name};
    assert Wanted(c2) == Wanted(n.client);
    hide Wanted, Asked;
    var n2 := n.(client := c2, down := n.down[1..]);
    forall m
      ensures m in Future(n2.server, n2.up) <==> m in Wanted(n2.client) && !Refused(n2, m)
    {
      assert m in Future(n.server, n.up) <==> m in Wanted(n.client) && !Refused(n, m);
    }
  }

  /** A request still on its way up is not the one acknowledged. */
  lemma AcknowledgeNames(n: Net, u0: Uuid)
    requires RecordsOk(n) && NamesOk(n) && n.down != [] && n.down[0].BeginAck? && n.down[0].uuid == u0
    ensures forall r :: r in n.up && r.Begin? ==> r.uuid != u0
  {
    forall r | r in n.up && r.Begin?
      ensures r.uuid != u0
    {
      InUpUuids(n.up, r);
      var j :| 0 <= j < |UpUuids(n.up)| && UpUuids(n.up)[j] == r.uuid;
      var d := |DownUuids(n.down)|;
      assert Outstanding(n)[0] == u0 && Outstanding(n)[d + j] == r.uuid;
    }
  }

  lemma {:induction false} InUpUuids(up: seq<Request>, r: Request)
    requires r in up && r.Begin?
    ensures r.uuid in UpUuids(up)
  {
    if up[0] != r {
      assert up == [up[0]] + up[1..];
      InUpUuids(up[1..], r);
    }
  }

  lemma StepKeeps(n: Net, a: Action)
    requires Inv(n) && Enabled(n, a)
    ensures Step(n, a).Some? && Inv(Step(n, a).value)
  {
    hide RecordsOk, NamesOk, ServerOk;
    match a
    case Subscribe(name, who) => SubscribeKeeps(n, name, who);
    case Unsubscribe(name, i) => UnsubscribeKeeps(n, name, i);
    case ServerTakes(accept) =>
      ServeKeepsRecords(n, accept);
      ServeKeepsServer(n, accept);
    case ClientTakes => AcknowledgeKeeps(n);
  }

  // ------------------------------------------------------------ over every run

  lemma {:induction false} RunKeeps(n: Net, acts: seq<Action>, n2: Net)
    requires Inv(n) && Runs(n, acts, n2)
    ensures Inv(n2)
    decreases |acts|
  {
    hide Inv, Step;
    if acts != [] {
      StepKeeps(n, acts[0]);
      RunKeeps(Step(n, acts[0]).value, acts[1..], n2);
    }
  }

  lemma Reached(acts: seq<Action>, n: Net)
    requires Runs(START, acts, n)
    ensures Inv(n)
  {
    assert Outstanding(START) == [];
    RunKeeps(START, acts, n);
  }

  /** No acknowledgement ever comes that the client cannot place. */
  lemma AcknowledgementsAreKnown(acts: seq<Action>, n: Net, a: Action)
    requires Runs(START, acts, n) && Enabled(n, a)
    ensures Step(n, a).Some?
  {
    Reached(acts, n);
    StepKeeps(n, a);
  }

  /**
   A name is subscribed or waited for, never both, and each name waited for
   has exactly one request in flight, which is recorded under that name.
   */
  lemma OneRequestPerName(acts: seq<Action>, n: Net, name: Name)
    requires Runs(START, acts, n)
    ensures !(name in n.client.active && name in n.client.waiting)
    ensures name in n.client.waiting ==> exists i :: 0 <= i < |Outstanding(n)| && IsFor(n, i, name)
    ensures forall i, j :: 0 <= i < j < |Outstanding(n)| && IsFor(n, i, name) ==> !IsFor(n, j, name)
    ensures forall i :: 0 <= i < |Outstanding(n)| && IsFor(n, i, name) ==> name in n.client.waiting
  {
    Reached(acts, n);
    var out := Outstanding(n);
    if name in n.client.waiting {
      assert name in n.client.waiting.Keys;
      var u :| u in n.client.uuids && n.client.uuids[u] == name;
      assert u in out;
      var i :| 0 <= i < |out| && out[i] == u;
      assert IsFor(n, i, name);
    }
    forall i | 0 <= i < |out| && IsFor(n, i, name)
      ensures name in n.client.waiting && out[i] in n.client.uuids
    {
      assert out[i] in out;
    }
  }

  predicate IsFor(n: Net, i: nat, name: Name)
    requires i < |Outstanding(n)|
  {
    var u := Outstanding(n)[i];
    u in n.client.uuids && n.client.uuids[u] == name
  }

  /**
   Once everything in flight is accepted the server has a subscription for a
   name exactly if the client has the name or waits for it, unless the server
   refused the last request for it and no other is on its way.
   */
  lemma ServerCatchesUp(acts: seq<Action>, n: Net, name: Name)
    requires Runs(START, acts, n)
    ensures name in Future(n.server, n.up)
      <==> name in n.client.active.Keys + n.client.waiting.Keys && !(name in n.refused && !Asked(n.up, name))
  {
    Reached(acts, n);
    hide NeverTwice, Future, Asked;
    assert name in Future(n.server, n.up) <==> name in Wanted(n.client) && !Refused(n, name);
  }

  /** When nothing is in flight the server has exactly the client's names that it did not refuse last. */
  lemma SettledServer(acts: seq<Action>, n: Net)
    requires Runs(START, acts, n) && n.up == [] && n.down == []
    ensures n.client.waiting == map[] && n.server == n.client.active.Keys - n.refused
  {
    Reached(acts, n);
    assert Outstanding(n) == [];
    NothingWaits(n);
    forall name
      ensures name in n.server <==> name in n.client.active.Keys - n.refused
    {
      ServerCatchesUp(acts, n, name);
    }
  }

  lemma NothingWaits(n: Net)
    requires RecordsOk(n) && Outstanding(n) == []
    ensures n.client.waiting == map[]
  {
    hide Outstanding;
    assert forall u :: u in Outstanding(n) <==> u in n.client.uuids;
    assert n.client.waiting.Keys == {};
  }

  /** The server is never asked for a subscription it has; it only refuses what it chooses to. */
  lemma NeverAskedTwice(acts: seq<Action>, n: Net, accept: bool)
    requires Runs(START, acts, n) && n.up != [] && n.up[0].Begin?
    ensures n.up[0].name !in n.server
    ensures Served(n, accept).refused == if accept then n.refused - {n.up[0].name} else n.refused + {n.up[0].name}
  {
    Reached(acts, n);
  }

  /** Whoever waited is registered even for a name the server refused, and is then told of nothing. */
  lemma RefusedIsRegistered(name: Name, who: nat) returns (n: Net, acts: seq<Action>)
    ensures Runs(START, acts, n)
    ensures name in n.client.active && n.client.active[name] == [who] && n.server == {} && n.refused == {name}
    ensures n.up == [] && n.down == []
  {
    var n1 := Step(START, Subscribe(name, who)).value;
    assert n1.up == [Begin(0, name)];
    var n2 := Step(n1, ServerTakes(false)).value;
    assert n2.down == [BeginAck(0, false)] && n2.up == [];
    n := Step(n2, ClientTakes).value;
    acts := [Subscribe(name, who), ServerTakes(false), ClientTakes];
    assert acts[1..] == [ServerTakes(false), ClientTakes] && acts[1..][1..] == [ClientTakes];
    assert [ClientTakes][1..] == [];
    assert Runs(n2, [ClientTakes], n);
    assert Runs(n1, acts[1..], n);
  }

  // ------------------------------------------------------------ nobody who subscribed is lost

  function ListOf(m: map<Name, seq<nat>>, name: Name): seq<nat> {
    if name in m then m[name] else []
  }

  /** Those who are registered for a name or wait to be. */
  function People(c: Client, name: Name): multiset<nat> {
    multiset(ListOf(c.active, name)) + multiset(ListOf(c.waiting, name))
  }

  /** Whom the action adds to a name's subscribers. */
  function Joins(a: Action, name: Name): multiset<nat> {
    if a.Subscribe? && a.name == name then multiset{a.who} else multiset{}
  }

  /** Whom the action removes. */
  function Leaves(n: Net, a: Action, name: Name): multiset<nat>
    requires Enabled(n, a)
  {
    if a.Unsubscribe? && a.name == name then multiset{n.client.active[name][a.i]} else multiset{}
  }

  lemma OneOut(s: seq<nat>, i: nat)
    requires i < |s|
    ensures multiset(s[..i] + s[i + 1..]) + multiset{s[i]} == multiset(s)
  {
    assert s == s[..i] + [s[i]] + s[i + 1..];
  }

  /**
   Each step adds to a name's subscribers exactly who subscribes to it and takes
   away exactly who unsubscribes from it; other names' subscribers stay, and an
   acknowledgement leaves nobody of its name waiting.
   */
  lemma StepPeople(n: Net, a: Action, name: Name)
    requires Enabled(n, a) && Step(n, a).Some?
    ensures var c2 := Step(n, a).value.client;
      && People(c2, name) + Leaves(n, a, name) == People(n.client, name) + Joins(a, name)
      && (a.ClientTakes? && n.down[0].BeginAck? && n.client.uuids[n.down[0].uuid] == name ==>
          name !in c2.waiting && ListOf(c2.active, name) == ListOf(n.client.active, name) + ListOf(n.client.waiting, name))
  {
    match a
    case Subscribe(m, who) => SubscribePeople(n.client, m, who, name);
    case Unsubscribe(m, i) => UnsubscribePeople(n.client, m, i, name);
    case ServerTakes(_) =>
    case ClientTakes =>
      if n.down[0].BeginAck? {
        AcknowledgePeople(n.client, n.down[0].uuid, name);
      }
      hide Acknowledged, People;
  }

  /** The lists are those before, one of them with new at its end. */
  predicate OneList(a: seq<nat>, b: seq<nat>, a2: seq<nat>, b2: seq<nat>, more: seq<nat>) {
    (a2 == a + more && b2 == b) || (a2 == a && b2 == b + more)
  }

  lemma OneListGrows(a: seq<nat>, b: seq<nat>, a2: seq<nat>, b2: seq<nat>, more: seq<nat>)
    requires OneList(a, b, a2, b2, more)
    ensures multiset(a2) + multiset(b2) == multiset(a) + multiset(b) + multiset(more)
  {
  }

  lemma SubscribeLists(c: Client, m: Name, who: nat, name: Name)
    ensures var c2 := Subscribed(c, m, who).0;
      OneList(ListOf(c.active, name), ListOf(c.waiting, name), ListOf(c2.active, name), ListOf(c2.waiting, name),
              if m == name then [who] else [])
  {
  }

  lemma SubscribePeople(c: Client, m: Name, who: nat, name: Name)
    ensures People(Subscribed(c, m, who).0, name) == People(c, name) + Joins(Subscribe(m, who), name)
  {
    var c2 := Subscribed(c, m, who).0;
    SubscribeLists(c, m, who, name);
    hide Subscribed, ListOf, OneList;
    OneListGrows(ListOf(c.active, name), ListOf(c.waiting, name), ListOf(c2.active, name), ListOf(c2.waiting, name),
                 if m == name then [who] else []);
  }

  lemma UnsubscribePeople(c: Client, m: Name, i: nat, name: Name)
    requires m in c.active && i < |c.active[m]|
    ensures People(Unsubscribed(c, m, i).0, name) + (if m == name then multiset{c.active[m][i]} else multiset{}) == People(c, name)
  {
    var c2 := Unsubscribed(c, m, i).0;
    var left := c.active[m][..i] + c.active[m][i + 1..];
    assert ListOf(c2.waiting, name) == ListOf(c.waiting, name);
    assert ListOf(c2.active, name) == if m == name then left else ListOf(c.active, name);
    hide Unsubscribed;
    if m == name {
      OneOut(c.active[m], i);
      Swapped(multiset(left), multiset{c.active[m][i]}, multiset(ListOf(c.waiting, name)));
    }
  }

  lemma Swapped(a: multiset<nat>, b: multiset<nat>, c: multiset<nat>)
    ensures a + c + b == a + b + c
  {
  }

  lemma AcknowledgePeople(c: Client, uuid: Uuid, name: Name)
    requires Known(c, uuid)
    ensures var c2 := Acknowledged(c, uuid);
      && People(c2, name) == People(c, name)
      && (c.uuids[uuid] == name ==>
          name !in c2.waiting && ListOf(c2.active, name) == ListOf(c.active, name) + ListOf(c.waiting, name))
  {
    var c2 := Acknowledged(c, uuid);
    var a, b := ListOf(c.active, name), ListOf(c.waiting, name);
    if c.uuids[uuid] == name {
      assert ListOf(c2.active, name) == a + b && ListOf(c2.waiting, name) == [];
    } else {
      assert ListOf(c2.active, name) == a && ListOf(c2.waiting, name) == b;
    }
    hide Acknowledged, ListOf;
  }

  /** All that the actions add to a name's subscribers. */
  function Joined(acts: seq<Action>, name: Name): multiset<nat> {
    if acts == [] then multiset{} else Joins(acts[0], name) + Joined(acts[1..], name)
  }

  /** All that the run takes away from them. */
  ghost function Gone(n: Net, acts: seq<Action>, n2: Net, name: Name): multiset<nat>
    requires Runs(n, acts, n2)
    decreases |acts|
  {
    if acts == [] then multiset{}
    else Leaves(n, acts[0], name) + Gone(Step(n, acts[0]).value, acts[1..], n2, name)
  }

  lemma {:induction false} RunPeople(n: Net, acts: seq<Action>, n2: Net, name: Name)
    requires Runs(n, acts, n2)
    ensures People(n2.client, name) + Gone(n, acts, n2, name) == People(n.client, name) + Joined(acts, name)
    decreases |acts|
  {
    hide Step, People, Leaves, Joins, Enabled;
    if acts != [] {
      var n1 := Step(n, acts[0]).value;
      StepPeople(n, acts[0], name);
      RunPeople(n1, acts[1..], n2, name);
      Balanced(People(n.client, name), Joins(acts[0], name), Joined(acts[1..], name), People(n1.client, name),
               Leaves(n, acts[0], name), Gone(n1, acts[1..], n2, name), People(n2.client, name));
    }
  }

  lemma Balanced(p: multiset<nat>, j: multiset<nat>, js: multiset<nat>, p1: multiset<nat>,
                 l: multiset<nat>, g: multiset<nat>, p2: multiset<nat>)
    requires p1 + l == p + j && p2 + g == p1 + js
    ensures p2 + (l + g) == p + (j + js)
  {
    assert p2 + (l + g) == p2 + g + l;
    assert p1 + js + l == p1 + l + js;
    assert p + (j + js) == p + j + js;
  }

  /**
   In every run those registered for a name or waiting to be are exactly those
   who subscribed to it without those who were unsubscribed from it.
   */
  lemma SubscribersAreConserved(acts: seq<Action>, n: Net, name: Name)
    requires Runs(START, acts, n)
    ensures multiset(if name in n.client.active then n.client.active[name] else [])
          + multiset(if name in n.client.waiting then n.client.waiting[name] else [])
          + Gone(START, acts, n, name)
         == Joined(acts, name)
  {
    RunPeople(START, acts, n, name);
    hide Gone, Joined, Runs;
    var none: multiset<nat> := multiset{};
    assert People(START.client, name) == none && none + Joined(acts, name) == Joined(acts, name);
  }

  /** With nothing in flight everybody who subscribed and did not leave is registered. */
  lemma SettledSubscribers(acts: seq<Action>, n: Net, name: Name)
    requires Runs(START, acts, n) && n.up == [] && n.down == []
    ensures multiset(if name in n.client.active then n.client.active[name] else []) + Gone(START, acts, n, name)
         == Joined(acts, name)
  {
    SettledServer(acts, n);
    SubscribersAreConserved(acts, n, name);
    hide Gone, Joined, Runs;
    var a := multiset(if name in n.client.active then n.client.active[name] else []);
    assert a + multiset([]) == a;
  }

  // ------------------------------------------------------------ the client

  /** What a subscriber is told of its request: the name was too long, or the subscription's status. */
  datatype Status = NameTooBig | Registered(processed: bool)

  function Results(name: Name, people: seq<nat>, status: Status): seq<(Name, nat, Status)> {
    seq(|people|, i requires 0 <= i < |people| => (name, people[i], status))
  }

  /** results: who was told what of a request to subscribe, in this order. */
  class MuxClient {
    var subscriberMap: map<Name, seq<nat>>
    var subq: map<Name, seq<nat>>
    var subquuids: map<Uuid, Name>
    var nextUuid: Uuid
    var written: seq<Request>
    var results: seq<(Name, nat, Status)>

    ghost function View(): Client
      reads this
    {
      Client(subscriberMap, subq, subquuids, nextUuid)
    }

    constructor ()
      ensures View() == START.client && written == [] && results == []
    {
      subscriberMap, subq, subquuids, nextUuid, written, results := map[], map[], map[], 0, [], [];
    }

    /** A name that is too long is refused without asking the server. */
    method DispatchSubscribe(objname: Name, who: nat, maxnamesize: nat) returns (tooBig: bool)
      modifies this
      ensures tooBig == (|objname| > maxnamesize)
      ensures tooBig ==> View() == old(View()) && written == old(written)
      ensures !tooBig ==>
        && View() == Subscribed(old(View()), objname, who).0
        && written == Sent(old(written), Subscribed(old(View()), objname, who).1)
      ensures tooBig ==> results == old(results) + [(objname, who, NameTooBig)]
      ensures !tooBig && objname in old(subscriberMap) ==>
        && subscriberMap == old(subscriberMap)[objname := old(subscriberMap)[objname] + [who]]
        && subq == old(subq) && written == old(written) && results == old(results) + [(objname, who, Registered(true))]
      ensures !tooBig && objname !in old(subscriberMap) ==> subscriberMap == old(subscriberMap) && results == old(results)
      ensures !tooBig && objname !in old(subscriberMap) && objname in old(subq) ==>
        subq == old(subq)[objname := old(subq)[objname] + [who]] && written == old(written)
      ensures !tooBig && objname !in old(subscriberMap) && objname !in old(subq) ==>
        && subq == old(subq)[objname := [who]] && subquuids == old(subquuids)[old(nextUuid) := objname]
        && written == old(written) + [Begin(old(nextUuid), objname)]
    {
      if |objname| > maxnamesize {
        results := results + [(objname, who, NameTooBig)];
        return true;
      }
      tooBig := false;
      if objname in subscriberMap {
        RegisterSubscription(objname, who, true);
        return;
      }
      if objname in subq {
        subq := subq[objname := subq[objname] + [who]];
        return;
      }
      written := written + [Begin(nextUuid, objname)];
      subquuids := subquuids[nextUuid := objname];
      subq := subq[objname := [who]];
      nextUuid := nextUuid + 1;
    }

    method RegisterSubscription(objname: Name, who: nat, processed: bool)
      modifies this`subscriberMap, this`results
      ensures subscriberMap == old(subscriberMap)[objname := ListOf(old(subscriberMap), objname) + [who]]
      ensures results == old(results) + [(objname, who, Registered(processed))]
    {
      results := results + [(objname, who, Registered(processed))];
      var before := if objname in subscriberMap then subscriberMap[objname] else [];
      subscriberMap := subscriberMap[objname := before + [who]];
    }

    /** Register all who wait for the acknowledged request; false is the exception for an unknown one. */
    method BeginSubReply(uuid: Uuid, processed: bool) returns (ok: bool)
      requires forall m :: m in subq ==> subq[m] != []
      modifies this
      ensures ok == Known(old(View()), uuid) && written == old(written)
      ensures ok <==> uuid in old(subquuids) && old(subquuids)[uuid] in old(subq)
      ensures ok ==> View() == Acknowledged(old(View()), uuid)
      ensures ok ==>
        var name := old(subquuids)[uuid];
        var waiting := old(subq)[name];
        && subscriberMap == old(subscriberMap)[name := ListOf(old(subscriberMap), name) + waiting]
        && subq == old(subq) - {name} && subquuids == old(subquuids) - {uuid}
        && results == old(results) + Results(name, waiting, Registered(processed))
      ensures !ok ==> subscriberMap == old(subscriberMap) && subq == old(subq) && results == old(results)
    {
      if uuid !in subquuids {
        return false;
      }
      var objname := subquuids[uuid];
      subquuids := subquuids - {uuid};
      if objname !in subq {
        return false;
      }
      var waiting := subq[objname];
      ghost var was := subscriberMap;
      ghost var before := if objname in was then was[objname] else [];
      var i := 0;
      while i < |waiting|
        invariant 0 <= i <= |waiting|
        invariant subscriberMap == if i == 0 then was else was[objname := before + waiting[..i]]
        invariant View() == old(View()).(uuids := old(subquuids) - {uuid}, active := subscriberMap)
        invariant written == old(written)
        invariant results == old(results) + Results(objname, waiting[..i], Registered(processed))
      {
        assert Results(objname, waiting[..i + 1], Registered(processed))
            == Results(objname, waiting[..i], Registered(processed)) + [(objname, waiting[i], Registered(processed))];
        assert before + waiting[..i] + [waiting[i]] == before + waiting[..i + 1] by {
          assert waiting[..i + 1] == waiting[..i] + [waiting[i]];
        }
        assert i == 0 ==> before + waiting[..i] == before;
        ghost var now := subscriberMap;
        RegisterSubscription(objname, waiting[i], processed);
        assert now[objname := before + waiting[..i + 1]] == was[objname := before + waiting[..i + 1]];
        i := i + 1;
      }
      assert waiting[..i] == waiting;
      subq := subq - {objname};
      return true;
    }

    method DispatchUnsubscribe(objname: Name, i: nat)
      requires objname in subscriberMap && i < |subscriberMap[objname]|
      modifies this
      ensures View() == Unsubscribed(old(View()), objname, i).0
      ensures written == Sent(old(written), Unsubscribed(old(View()), objname, i).1)
      ensures subq == old(subq) && subscriberMap - {objname} == old(subscriberMap) - {objname}
      ensures multiset(ListOf(subscriberMap, objname)) + multiset{old(subscriberMap)[objname][i]} == multiset(old(subscriberMap)[objname])
      ensures |old(subscriberMap)[objname]| == 1 ==> objname !in subscriberMap && written == old(written) + [End(objname)]
      ensures |old(subscriberMap)[objname]| > 1 ==> objname in subscriberMap && written == old(written)
    {
      OneOut(subscriberMap[objname], i);
      var left := subscriberMap[objname][..i] + subscriberMap[objname][i + 1..];
      if left != [] {
        subscriberMap := subscriberMap[objname := left];
        return;
      }
      subscriberMap := subscriberMap - {objname};
      written := written + [End(objname)];
    }

    /** Everyone registered for the name is told of the change once, in the order of registration. */
    method Userchanged(objname: Name, suffix: string) returns (updated: seq<(nat, Name, string)>)
      ensures |updated| == |ListOf(subscriberMap, objname)|
      ensures forall i :: 0 <= i < |updated| ==> updated[i] == (subscriberMap[objname][i], objname, suffix)
    {
      updated := [];
      if objname in subscriberMap {
        var i := 0;
        while i < |subscriberMap[objname]|
          invariant 0 <= i <= |subscriberMap[objname]| && |updated| == i
          invariant forall j :: 0 <= j < i ==> updated[j] == (subscriberMap[objname][j], objname, suffix)
        {
          updated := updated + [(subscriberMap[objname][i], objname, suffix)];
          i := i + 1;
        }
      }
    }
  }
}
