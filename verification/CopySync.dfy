/**
 Safety of the copy: whatever the interleaving with commits, a copy the source
 recorded as successful leaves both repositories equal once the connection has
 drained, and the destination that sees the final message holds exactly what
 the source held when it was released.
 */
module CopySync {
  import opened Stores
  import opened CopyProtocol

  // ------------------------------------------------------------ what is pending

  predicate Carries(w: Wired, n: Name) {
    w.WObj? && w.name == n
  }

  predicate Touches(wire: seq<Wired>, n: Name) {
    exists i :: 0 <= i < |wire| && Carries(wire[i], n)
  }

  /** What n is bound to once everything on the wire is delivered to one that holds d. */
  function Net(wire: seq<Wired>, d: Option<Obj>, n: Name): Option<Obj> {
    if wire == [] then d
    else Net(wire[1..], if Carries(wire[0], n) then wire[0].value else d, n)
  }

  lemma {:induction false} NetAppend(wire: seq<Wired>, w: Wired, d: Option<Obj>, n: Name)
    ensures Net(wire + [w], d, n) == if Carries(w, n) then w.value else Net(wire, d, n)
  {
    if wire == [] {
      assert (wire + [w])[1..] == [];
    } else {
      assert (wire + [w])[1..] == wire[1..] + [w];
      NetAppend(wire[1..], w, if Carries(wire[0], n) then wire[0].value else d, n);
    }
  }

  lemma {:induction false} NetUntouched(wire: seq<Wired>, d: Option<Obj>, n: Name)
    requires !Touches(wire, n)
    ensures Net(wire, d, n) == d
  {
    if wire != [] {
      assert !Carries(wire[0], n);
      forall i | 0 <= i < |wire[1..]|
        ensures !Carries(wire[1..][i], n)
      {
        assert wire[1..][i] == wire[i + 1];
      }
      NetUntouched(wire[1..], d, n);
    }
  }

  function WireControls(wire: seq<Wired>): seq<ToDst> {
    if wire == [] then []
    else if wire[0].WCtl? then [wire[0].msg] + WireControls(wire[1..])
    else WireControls(wire[1..])
  }

  function QueueControls(outq: seq<Queued>): seq<ToDst> {
    if outq == [] then []
    else if outq[0].QCtl? then [outq[0].msg] + QueueControls(outq[1..])
    else QueueControls(outq[1..])
  }

  lemma {:induction false} WireControlsAppend(wire: seq<Wired>, w: Wired)
    ensures WireControls(wire + [w]) == if w.WCtl? then WireControls(wire) + [w.msg] else WireControls(wire)
  {
    if wire == [] {
      assert (wire + [w])[1..] == [];
    } else {
      assert (wire + [w])[1..] == wire[1..] + [w];
      WireControlsAppend(wire[1..], w);
    }
  }

  lemma {:induction false} QueueControlsAppend(outq: seq<Queued>, q: Queued)
    ensures QueueControls(outq + [q]) == if q.QCtl? then QueueControls(outq) + [q.msg] else QueueControls(outq)
  {
    if outq == [] {
      assert (outq + [q])[1..] == [];
    } else {
      assert (outq + [q])[1..] == outq[1..] + [q];
      QueueControlsAppend(outq[1..], q);
    }
  }

  /** The control messages on their way to the destination, in order. */
  function Controls(k: State): seq<ToDst> {
    k.inbox + WireControls(k.wire) + QueueControls(k.outq)
  }

  // ------------------------------------------------------------ where the copy stands

  /** The one place the conversation currently is. */
  datatype At =
    | Transit(msg: ToDst)
    | AtDst(d: DstThread)
    | Reply(r: ToSrc)
    | AtSrc(s: SrcThread)
    | Finished

  function Where(k: State): At {
    if k.success then Finished
    else if Controls(k) != [] then Transit(Controls(k)[0])
    else if !k.dstThread.Idle? then AtDst(k.dstThread)
    else if k.back != [] then Reply(k.back[0])
    else AtSrc(k.srcThread)
  }

  /** Exactly one control message is in flight or being handled. */
  predicate OneToken(k: State) {
    match Where(k)
    case Transit(msg) => |Controls(k)| == 1 && k.dstThread.Idle? && k.back == [] && k.srcThread.Waiting?
    case AtDst(_) => k.back == [] && k.srcThread.Waiting?
    case Reply(_) => |k.back| == 1 && k.srcThread.Waiting?
    case AtSrc(t) => !t.Waiting? && !t.Stopped?
    case Finished => k.back == [] && k.dstThread.Idle? && k.inbox == [] && k.srcThread.Stopped?
  }

  /** Every message and every activity belongs to the phase it appears in. */
  predicate RightPhase(k: State) {
    match Where(k)
    case Transit(BatonRequest) => k.srcWalk.None? && k.dstWalk.None?
    case Transit(MasterList(_)) => k.srcWalk.Some? && k.dstWalk.None?
    case Transit(MasterListDone) => k.srcWalk.None? && k.dstWalk.None?
    case Transit(SlaveListStart) => k.srcWalk.None? && k.dstWalk.None?
    case Transit(MasterAck) => k.srcWalk.None? && k.dstWalk.Some?
    case Transit(CopyComplete) => false
    case AtDst(Answering(asked, todo, uuids, nouuids)) =>
      && k.srcWalk.Some? && k.dstWalk.None?
      && todo <= asked.Keys && todo !! uuids.Keys && todo !! nouuids && uuids.Keys !! nouuids
    case AtDst(Walking) => k.srcWalk.None? && k.dstWalk.Some?
    case AtDst(Listing(todo, uuids)) => k.srcWalk.None? && k.dstWalk.Some? && todo !! uuids.Keys
    case AtDst(Idle) => false
    case Reply(BatonResponse(_)) => k.srcWalk.None? && k.dstWalk.None?
    case Reply(SlaveList(uuids, nouuids)) => ListPhase(k, uuids, nouuids)
    case Reply(SlaveListReady) => k.srcWalk.None? && k.dstWalk.None?
    case Reply(SlaveListDone) => k.srcWalk.None? && k.dstWalk.Some?
    case AtSrc(Locking(uuids, nouuids)) => ListPhase(k, uuids, nouuids)
    case AtSrc(Comparing(uuids, nouuids, todo)) =>
      ListPhase(k, uuids, nouuids) && todo <= uuids.Keys + nouuids
    case AtSrc(BatchLocking(_)) => k.srcWalk.Some? && k.dstWalk.None?
    case AtSrc(Sending(_)) => k.srcWalk.Some? && k.dstWalk.None?
    case AtSrc(Starting) => k.srcWalk.None? && k.dstWalk.None?
    case AtSrc(_) => false
    case Finished => true
  }

  /** A list is answered while the source enumerates, or enumerates the destination itself. */
  predicate ListPhase(k: State, uuids: map<Name, Uuid>, nouuids: set<Name>) {
    && uuids.Keys !! nouuids
    && (k.srcWalk.Some? <==> k.dstWalk.None?)
    && (k.dstWalk.Some? ==> nouuids == {})
  }

  // ------------------------------------------------------------ what each name is owed

  /** The list on its way mentions n in a way that will make the source send it. */
  predicate ListWillSend(k: State, uuids: map<Name, Uuid>, nouuids: set<Name>, n: Name) {
    (n in uuids || n in nouuids) && Mismatch(uuids, nouuids, n, Look(k.src, n))
  }

  predicate Carried(k: State, at: At, n: Name) {
    match at
    case Transit(MasterList(uuids)) => n in k.src && n in uuids && uuids[n] == k.src[n].uuid
    case AtDst(Answering(asked, todo, uuids, nouuids)) =>
      || (n in k.src && n in todo && n in asked && asked[n] == k.src[n].uuid)
      || ListWillSend(k, uuids, nouuids, n)
    case AtDst(Listing(todo, uuids)) => n in todo || n in uuids
    case Reply(SlaveList(uuids, nouuids)) => ListWillSend(k, uuids, nouuids, n)
    case AtSrc(Locking(uuids, nouuids)) => ListWillSend(k, uuids, nouuids, n)
    case AtSrc(Comparing(uuids, nouuids, todo)) => n in todo && ListWillSend(k, uuids, nouuids, n)
    case AtSrc(BatchLocking(batch)) => n in batch
    case AtSrc(Sending(uuids)) => n in k.src && n in uuids && uuids[n] == k.src[n].uuid
    case _ => false
  }

  /** Some part of the copy has still to enumerate n or to act on it. */
  predicate Owed(k: State, at: At, n: Name) {
    if at == AtSrc(Starting) || at == Transit(BatonRequest) || at == Reply(BatonResponse(false)) then true
    else if at.Finished? || at == Reply(BatonResponse(true)) || at == Reply(SlaveListDone) then false
    else if k.srcWalk.Some? then n in k.src ==> n in k.srcWalk.value.must || Carried(k, at, n)
    else n !in k.src && (k.dstWalk.Some? ==> n in k.dstWalk.value.must || Carried(k, at, n))
  }

  /** The store the destination is being brought to. */
  function Target(k: State): Store {
    if k.released.Some? then k.released.value else k.src
  }

  /** A serializer for n is queued, or a commit is about to have it queued. */
  predicate Coming(k: State, n: Name) {
    QObj(n) in k.outq || (n in k.committing && k.released.None?)
  }

  /** What the destination will hold under n once everything queued has arrived. */
  function Eff(k: State, n: Name): Option<Obj> {
    if Coming(k, n) then Look(k.src, n) else Net(k.wire, Look(k.dst, n), n)
  }

  predicate InSync(k: State, n: Name) {
    Eff(k, n) == Look(Target(k), n)
  }

  /** Nothing has happened to n since the start. */
  predicate Untouched(s0: Store, d0: Store, k: State, n: Name) {
    && Look(k.src, n) == Look(s0, n) && Look(k.dst, n) == Look(d0, n)
    && n !in k.committing && QObj(n) !in k.outq && !Touches(k.wire, n)
  }

  predicate NameInv(s0: Store, d0: Store, k: State, n: Name) {
    InSync(k, n) || (Untouched(s0, d0, k, n) && Owed(k, Where(k), n))
  }

  predicate Aborted(k: State) {
    k.srcThread.Stopped? && !k.success
  }

  /** After the release only the rest of the queue follows, the final message last. */
  predicate ReleaseInv(k: State) {
    if k.released.None? then !k.done && (k.success ==> Controls(k) == [])
    else
      && k.srcThread.Stopped?
      && Controls(k) == (if k.done then [] else [CopyComplete])
      && (if k.done then k.outq == [] && k.wire == []
          else if k.outq != [] then k.outq[|k.outq| - 1] == QCtl(CopyComplete)
          else k.wire != [] && k.wire[|k.wire| - 1] == WCtl(CopyComplete))
  }

  /** Locked objects keep their value until they are serialized. */
  ghost predicate LockInv(k: State) {
    k.released.Some? ==> forall n :: QObj(n) in k.outq ==> Look(k.src, n) == Look(k.released.value, n)
  }

  /** The commit lock is not given out while a commit is under way. */
  predicate CommitInv(k: State) {
    k.commitsLocked ==> k.committing == {}
  }

  ghost predicate Inv(s0: Store, d0: Store, k: State) {
    && CommitInv(k)
    && (!Aborted(k) ==>
          && OneToken(k) && RightPhase(k) && ReleaseInv(k) && LockInv(k)
          && (forall n :: NameInv(s0, d0, k, n)))
  }

  /** A matching baton stands for repositories that were already equal. */
  ghost predicate Start(cfg: Config, s0: Store, d0: Store) {
    && CoherentStores(s0, d0)
    && (cfg.batonMatches ==> SameUuids(s0, d0))
  }

  // ------------------------------------------------------------ preservation: messages and commits moving data

  /** The place and its phase depend only on the control part of the state. */
  lemma PlaceFrame(k: State, k2: State)
    requires k2.success == k.success && k2.dstThread == k.dstThread && k2.back == k.back && k2.srcThread == k.srcThread
    requires Controls(k2) == Controls(k)
    requires k2.srcWalk.Some? == k.srcWalk.Some? && k2.dstWalk.Some? == k.dstWalk.Some?
    requires k.success ==> k2.inbox == k.inbox
    ensures Where(k2) == Where(k)
    ensures OneToken(k) ==> OneToken(k2)
    ensures RightPhase(k) ==> RightPhase(k2)
  {
  }

  predicate InMust(w: Option<Walk>, n: Name) {
    w.Some? && n in w.value.must
  }

  lemma OwedFrame(k: State, k2: State, at: At, n: Name)
    requires Look(k2.src, n) == Look(k.src, n)
    requires k2.srcWalk.Some? == k.srcWalk.Some? && k2.dstWalk.Some? == k.dstWalk.Some?
    requires InMust(k2.srcWalk, n) == InMust(k.srcWalk, n)
    requires InMust(k2.dstWalk, n) == InMust(k.dstWalk, n)
    ensures Owed(k, at, n) ==> Owed(k2, at, n)
  {
    assert n in k2.src <==> n in k.src;
  }

  /** A finished copy owes nothing. */
  lemma FinishedInSync(s0: Store, d0: Store, k: State, n: Name)
    requires k.success && NameInv(s0, d0, k, n)
    ensures InSync(k, n)
  {
  }

  /** A step that changes neither what n comes to nor what it is owed. */
  lemma NameFrame(s0: Store, d0: Store, k: State, k2: State, n: Name)
    requires NameInv(s0, d0, k, n)
    requires Eff(k2, n) == Eff(k, n) && Look(Target(k2), n) == Look(Target(k), n)
    requires !InSync(k, n) && Untouched(s0, d0, k, n) && Owed(k, Where(k), n)
             ==> Untouched(s0, d0, k2, n) && Owed(k2, Where(k2), n)
    ensures NameInv(s0, d0, k2, n)
    ensures InSync(k, n) ==> InSync(k2, n)
  {
  }

  /** A commit changes one name, which is on its way at once while the notifier is installed. */
  lemma CommitName(k: State, n: Name, v: Option<Obj>, m: Name)
    requires !Held(k, n)
    ensures var k2 := ApplyCommit(k, n, v);
      && (m == n && k.released.None? ==> InSync(k2, m))
      && (m != n || k.released.Some? ==> Eff(k2, m) == Eff(k, m) && Look(Target(k2), m) == Look(Target(k), m))
      && (m != n ==> Look(k2.src, m) == Look(k.src, m))
  {
    hide Look, Put;
    LookPut(k.src, n, v, m);
  }

  lemma CommitKeeps(s0: Store, d0: Store, k: State, n: Name, v: Option<Obj>)
    requires Inv(s0, d0, k) && !Aborted(k) && !k.commitsLocked && !Held(k, n)
    ensures Inv(s0, d0, ApplyCommit(k, n, v))
    ensures forall m :: InSync(k, m) ==> InSync(ApplyCommit(k, n, v), m)
  {
    hide RightPhase, OneToken, Owed, Where, Look, Put, Eff, Touches;
    var k2 := ApplyCommit(k, n, v);
    assert Controls(k2) == Controls(k);
    PlaceFrame(k, k2);
    forall m
      ensures NameInv(s0, d0, k2, m)
      ensures InSync(k, m) ==> InSync(k2, m)
      ensures k.released.Some? && QObj(m) in k2.outq ==> Look(k2.src, m) == Look(k.src, m)
    {
      assert NameInv(s0, d0, k, m);
      CommitName(k, n, v, m);
      if m != n || k.released.Some? {
        if m == n {
          FinishedInSync(s0, d0, k, n);
        } else {
          OwedFrame(k, k2, Where(k), m);
        }
        NameFrame(s0, d0, k, k2, m);
      }
    }
  }

  /** The notifier's serializer stands for the same value as the commit that called it. */
  lemma ForwardName(k: State, n: Name, m: Name)
    requires n in k.committing
    ensures var k2 := ApplyForward(k, n);
      && Eff(k2, m) == Eff(k, m) && Target(k2) == Target(k)
      && (m != n || k.released.Some? ==> (QObj(m) in k2.outq <==> QObj(m) in k.outq))
  {
    var k2 := ApplyForward(k, n);
    if k.released.None? {
      assert k2.outq[|k.outq|] == QObj(n);
    }
  }

  lemma ForwardKeeps(s0: Store, d0: Store, k: State, n: Name)
    requires Inv(s0, d0, k) && !Aborted(k) && n in k.committing
    ensures Inv(s0, d0, ApplyForward(k, n))
    ensures forall m :: InSync(k, m) ==> InSync(ApplyForward(k, n), m)
  {
    hide RightPhase, OneToken, Owed, Where, Look, Eff, Touches;
    var k2 := ApplyForward(k, n);
    QueueControlsAppend(k.outq, QObj(n));
    assert Controls(k2) == Controls(k);
    PlaceFrame(k, k2);
    forall m
      ensures NameInv(s0, d0, k2, m)
      ensures InSync(k, m) ==> InSync(k2, m)
      ensures k.released.Some? && QObj(m) in k2.outq ==> QObj(m) in k.outq
    {
      assert NameInv(s0, d0, k, m);
      ForwardName(k, n, m);
      if m != n {
        OwedFrame(k, k2, Where(k), m);
      }
      NameFrame(s0, d0, k, k2, m);
    }
  }

  /** Serializing replaces a lock by the value it protected. */
  lemma SerializeName(k: State, m: Name)
    requires k.outq != []
    ensures var k2 := ApplySerialize(k);
      && Eff(k2, m) == Eff(k, m)
      && (QObj(m) in k2.outq ==> QObj(m) in k.outq)
      && (QObj(m) !in k.outq && !Touches(k.wire, m) ==> !Touches(k2.wire, m))
  {
    hide Look;
    var k2 := ApplySerialize(k);
    var q := k.outq[0];
    var w := k2.wire[|k.wire|];
    assert k.outq == [q] + k2.outq;
    assert QObj(m) in k.outq <==> q == QObj(m) || QObj(m) in k2.outq;
    NetAppend(k.wire, w, Look(k.dst, m), m);
    if Touches(k2.wire, m) && !Touches(k.wire, m) {
      assert Carries(w, m);
    }
  }

  lemma SerializeKeeps(s0: Store, d0: Store, k: State)
    requires Inv(s0, d0, k) && !Aborted(k) && k.outq != []
    ensures Inv(s0, d0, ApplySerialize(k))
    ensures forall m :: InSync(k, m) ==> InSync(ApplySerialize(k), m)
  {
    hide RightPhase, OneToken, Owed, Where, Look, Eff, Touches;
    var k2 := ApplySerialize(k);
    WireControlsAppend(k.wire, k2.wire[|k.wire|]);
    assert Controls(k2) == Controls(k);
    PlaceFrame(k, k2);
    forall m
      ensures NameInv(s0, d0, k2, m)
      ensures InSync(k, m) ==> InSync(k2, m)
      ensures QObj(m) in k2.outq ==> QObj(m) in k.outq
    {
      assert NameInv(s0, d0, k, m);
      SerializeName(k, m);
      OwedFrame(k, k2, Where(k), m);
      NameFrame(s0, d0, k, k2, m);
    }
  }

  lemma LastQueued(outq: seq<Queued>)
    requires outq != [] && outq[|outq| - 1].QCtl?
    ensures QueueControls(outq) != []
  {
    var last := outq[|outq| - 1];
    QueueControlsAppend(outq[..|outq| - 1], last);
    assert outq == outq[..|outq| - 1] + [last];
  }

  lemma LastWired(wire: seq<Wired>)
    requires wire != [] && wire[|wire| - 1].WCtl?
    ensures WireControls(wire) != []
  {
    var last := wire[|wire| - 1];
    WireControlsAppend(wire[..|wire| - 1], last);
    assert wire == wire[..|wire| - 1] + [last];
  }

  /** Once the final message heads the wire there is nothing behind it. */
  lemma FinalIsLast(k: State)
    requires ReleaseInv(k) && k.released.Some? && !k.done
    requires k.wire != [] && k.wire[0] == WCtl(CopyComplete)
    ensures k.outq == [] && |k.wire| == 1
  {
    if k.outq != [] {
      LastQueued(k.outq);
    } else if |k.wire| > 1 {
      LastWired(k.wire[1..]);
    }
  }

  /** What delivering the message at the head of the wire changes. */
  lemma DeliverFields(k: State)
    requires k.wire != []
    ensures var k2 := ApplyDeliver(k);
      && k2.src == k.src && k2.outq == k.outq && k2.wire == k.wire[1..] && k2.back == k.back
      && k2.srcThread == k.srcThread && k2.srcWalk == k.srcWalk && k2.dstThread == k.dstThread
      && k2.success == k.success && k2.released == k.released && k2.sent == k.sent
      && k2.committing == k.committing && k2.commitsLocked == k.commitsLocked
      && k2.dstWalk.Some? == k.dstWalk.Some?
      && (k.wire[0].WCtl? ==> k2.dst == k.dst && k2.dstWalk == k.dstWalk)
      && (k.wire[0].WObj? ==>
           && k2.inbox == k.inbox && k2.done == k.done
           && k2.dst == Put(k.dst, k.wire[0].name, k.wire[0].value)
           && k2.dstWalk == Observe(k.dstWalk, k.wire[0].name in k.dst, k.wire[0].name, k.wire[0].value))
      && (k.wire[0] == WCtl(CopyComplete) ==> k2.inbox == k.inbox && k2.done)
      && (k.wire[0].WCtl? && k.wire[0].msg != CopyComplete ==>
           k2.inbox == k.inbox + [k.wire[0].msg] && k2.done == k.done)
  {
    hide Put;
  }

  /** Delivering moves controls on in order. */
  lemma DeliverInOrder(k: State)
    requires k.wire != [] && k.wire[0] != WCtl(CopyComplete)
    ensures Controls(ApplyDeliver(k)) == Controls(k)
    ensures k.wire[0].WCtl? ==> k.wire[0].msg in Controls(k)
  {
    if k.wire[0].WCtl? {
      var msg := k.wire[0].msg;
      var rest := WireControls(k.wire[1..]);
      assert k.inbox + ([msg] + rest) == (k.inbox + [msg]) + rest;
      assert Controls(k)[|k.inbox|] == msg;
    }
  }

  /** The final message is delivered last, and only by a finished copy. */
  lemma DeliverFinal(k: State)
    requires k.wire != [] && k.wire[0] == WCtl(CopyComplete) && !Aborted(k)
    requires OneToken(k) && RightPhase(k) && ReleaseInv(k)
    ensures k.success && k.released.Some? && !k.done && k.outq == [] && |k.wire| == 1
  {
    assert WireControls(k.wire)[0] == CopyComplete;
    assert Controls(k)[|k.inbox|] == CopyComplete;
    if k.released.Some? {
      FinalIsLast(k);
    }
  }

  lemma DeliverControls(k: State)
    requires k.wire != [] && !Aborted(k)
    requires OneToken(k) && RightPhase(k) && ReleaseInv(k)
    ensures k.wire[0] == WCtl(CopyComplete) ==> k.success
    ensures k.wire[0] != WCtl(CopyComplete) ==> Where(ApplyDeliver(k)) == Where(k)
    ensures OneToken(ApplyDeliver(k)) && RightPhase(ApplyDeliver(k)) && ReleaseInv(ApplyDeliver(k))
  {
    var k2 := ApplyDeliver(k);
    if k.wire[0] == WCtl(CopyComplete) {
      DeliverFinal(k);
      assert k.wire[1..] == [];
    } else {
      DeliverInOrder(k);
      DeliverOther(k);
    }
  }

  lemma DeliverOther(k: State)
    requires k.wire != [] && k.wire[0] != WCtl(CopyComplete) && !Aborted(k)
    requires OneToken(k) && RightPhase(k) && ReleaseInv(k)
    requires Controls(ApplyDeliver(k)) == Controls(k)
    requires k.wire[0].WCtl? ==> k.wire[0].msg in Controls(k)
    ensures Where(ApplyDeliver(k)) == Where(k)
    ensures OneToken(ApplyDeliver(k)) && RightPhase(ApplyDeliver(k)) && ReleaseInv(ApplyDeliver(k))
  {
    hide RightPhase, Where, Put, Look, ApplyDeliver;
    DeliverFields(k);
    var k2 := ApplyDeliver(k);
    PlaceFrame(k, k2);
  }

  /** Delivering an object changes when it counts, not what it counts for. */
  lemma DeliverName(k: State, m: Name)
    requires k.wire != []
    ensures var k2 := ApplyDeliver(k);
      && Eff(k2, m) == Eff(k, m) && Target(k2) == Target(k)
      && (!Touches(k.wire, m) ==> !Touches(k2.wire, m) && !Carries(k.wire[0], m) && Look(k2.dst, m) == Look(k.dst, m))
  {
    hide Put, Look, ApplyDeliver;
    DeliverFields(k);
    var k2 := ApplyDeliver(k);
    var w := k.wire[0];
    if w.WObj? {
      LookPut(k.dst, w.name, w.value, m);
    }
    if Touches(k2.wire, m) {
      var i :| 0 <= i < |k2.wire| && Carries(k2.wire[i], m);
      assert Carries(k.wire[i + 1], m);
    }
  }

  lemma DeliverKeeps(s0: Store, d0: Store, k: State)
    requires Inv(s0, d0, k) && !Aborted(k) && k.wire != []
    ensures Inv(s0, d0, ApplyDeliver(k))
    ensures forall m :: InSync(k, m) ==> InSync(ApplyDeliver(k), m)
  {
    hide RightPhase, OneToken, Owed, Where, ReleaseInv, Eff, Touches, Controls, Put, Look, ApplyDeliver;
    var k2 := ApplyDeliver(k);
    DeliverFields(k);
    DeliverControls(k);
    forall m
      ensures NameInv(s0, d0, k2, m)
      ensures InSync(k, m) ==> InSync(k2, m)
    {
      assert NameInv(s0, d0, k, m);
      DeliverName(k, m);
      if k.wire[0] == WCtl(CopyComplete) {
        FinishedInSync(s0, d0, k, m);
      } else if !Touches(k.wire, m) {
        OwedFrame(k, k2, Where(k), m);
      }
      NameFrame(s0, d0, k, k2, m);
    }
  }

  // ------------------------------------------------------------ preservation: the conversation moving on

  /** n still differs and nothing has been sent for it. */
  predicate Open(s0: Store, d0: Store, k: State, n: Name) {
    !InSync(k, n) && Untouched(s0, d0, k, n)
  }

  lemma OpenFacts(s0: Store, d0: Store, k: State, n: Name)
    requires CoherentStores(s0, d0) && k.released.None? && Open(s0, d0, k, n)
    ensures Look(k.src, n) != Look(k.dst, n) && Coherent(Look(k.src, n), Look(k.dst, n))
  {
    NetUntouched(k.wire, Look(k.dst, n), n);
  }

  lemma ControlName(k: State, k2: State, n: Name)
    requires k2.src == k.src && k2.dst == k.dst && k2.wire == k.wire && k2.released == k.released
    requires k2.committing == k.committing
    requires k2.outq == k.outq
      || (|k2.outq| == |k.outq| + 1 && k2.outq[..|k.outq|] == k.outq && k2.outq[|k.outq|].QCtl?)
    ensures Eff(k2, n) == Eff(k, n) && Target(k2) == Target(k)
    ensures QObj(n) in k2.outq <==> QObj(n) in k.outq
  {
    if k2.outq != k.outq {
      assert k2.outq == k.outq + [k2.outq[|k.outq|]];
    }
  }

  /** A step of the conversation alone: it may only move obligations along. */
  lemma ControlKeeps(s0: Store, d0: Store, k: State, k2: State)
    requires Inv(s0, d0, k) && !Aborted(k) && k.released.None?
    requires k2.src == k.src && k2.dst == k.dst && k2.wire == k.wire && k2.released == k.released
    requires k2.committing == k.committing && k2.commitsLocked == k.commitsLocked
    requires k2.outq == k.outq
      || (|k2.outq| == |k.outq| + 1 && k2.outq[..|k.outq|] == k.outq && k2.outq[|k.outq|].QCtl?)
    requires OneToken(k2) && RightPhase(k2) && ReleaseInv(k2)
    requires forall n :: Open(s0, d0, k, n) && Owed(k, Where(k), n) ==> Owed(k2, Where(k2), n)
    ensures Inv(s0, d0, k2)
    ensures forall n :: InSync(k, n) ==> InSync(k2, n)
  {
    hide RightPhase, OneToken, ReleaseInv, Owed, Where, Eff, Touches, Look;
    forall n
      ensures NameInv(s0, d0, k2, n)
      ensures InSync(k, n) ==> InSync(k2, n)
    {
      assert NameInv(s0, d0, k, n);
      ControlName(k, k2, n);
      assert Open(s0, d0, k, n) ==> !InSync(k, n);
      NameFrame(s0, d0, k, k2, n);
    }
  }

  lemma InboxToken(k: State)
    requires OneToken(k) && RightPhase(k) && !Aborted(k) && k.inbox != []
    ensures !k.success && Where(k) == Transit(k.inbox[0]) && k.inbox[1..] == []
    ensures WireControls(k.wire) == [] && QueueControls(k.outq) == []
    ensures k.dstThread.Idle? && k.back == [] && k.srcThread.Waiting?
  {
    assert Controls(k)[0] == k.inbox[0];
  }

  lemma DstToken(k: State)
    requires OneToken(k) && RightPhase(k) && !Aborted(k) && !k.dstThread.Idle?
    ensures !k.success && Where(k) == AtDst(k.dstThread) && Controls(k) == []
    ensures k.back == [] && k.srcThread.Waiting?
  {
  }

  lemma BackToken(k: State)
    requires OneToken(k) && RightPhase(k) && !Aborted(k) && k.back != []
    ensures !k.success && Where(k) == Reply(k.back[0]) && Controls(k) == []
    ensures k.back[1..] == [] && k.srcThread.Waiting? && k.dstThread.Idle?
  {
  }

  lemma SrcToken(k: State)
    requires OneToken(k) && RightPhase(k) && !Aborted(k) && !k.srcThread.Waiting? && !k.success
    ensures Where(k) == AtSrc(k.srcThread) && Controls(k) == [] && !k.srcThread.Stopped?
    ensures k.back == [] && k.dstThread.Idle?
  {
  }

  lemma NotReleased(k: State)
    requires ReleaseInv(k) && !Aborted(k) && !k.success
    ensures k.released.None? && !k.done
  {
  }

  /** The place the conversation moves to when the destination takes a message. */
  function DstTakeAt(cfg: Config, msg: ToDst): At {
    match msg
    case BatonRequest => Reply(BatonResponse(cfg.batonMatches))
    case MasterList(uuids) => AtDst(Answering(uuids, uuids.Keys, map[], {}))
    case MasterListDone => Reply(SlaveListReady)
    case _ => AtDst(Walking)
  }

  lemma DstTakePlace(cfg: Config, k: State)
    requires OneToken(k) && RightPhase(k) && ReleaseInv(k) && !Aborted(k) && k.inbox != []
    ensures var k2 := ApplyDstTake(cfg, k);
      && Where(k2) == DstTakeAt(cfg, k.inbox[0]) && OneToken(k2) && RightPhase(k2) && ReleaseInv(k2)
  {
    var k2 := ApplyDstTake(cfg, k);
    InboxToken(k);
    NotReleased(k);
    assert Controls(k2) == [];
    match k.inbox[0]
    case BatonRequest =>
    case MasterList(uuids) =>
    case MasterListDone =>
    case SlaveListStart =>
    case MasterAck =>
    case CopyComplete =>
  }

  lemma DstTakeOwes(cfg: Config, s0: Store, d0: Store, k: State, n: Name)
    requires CoherentStores(s0, d0) && k.released.None? && Open(s0, d0, k, n)
    requires k.inbox != [] && !cfg.batonMatches && !k.inbox[0].CopyComplete?
    requires k.inbox[0].SlaveListStart? || k.inbox[0].MasterListDone? ==> k.srcWalk.None? && k.dstWalk.None?
    requires Owed(k, Transit(k.inbox[0]), n)
    ensures Owed(ApplyDstTake(cfg, k), DstTakeAt(cfg, k.inbox[0]), n)
  {
    OpenFacts(s0, d0, k, n);
    hide Open;
    match k.inbox[0]
    case BatonRequest =>
    case MasterList(uuids) =>
    case MasterListDone =>
    case SlaveListStart => assert n !in k.src ==> n in k.dst;
    case MasterAck =>
  }

  lemma DstTakeKeeps(cfg: Config, s0: Store, d0: Store, k: State)
    requires CoherentStores(s0, d0)
    requires Inv(s0, d0, k) && !Aborted(k) && k.inbox != []
    requires cfg.batonMatches ==> forall n :: InSync(k, n)
    ensures Inv(s0, d0, ApplyDstTake(cfg, k))
    ensures forall n :: InSync(k, n) ==> InSync(ApplyDstTake(cfg, k), n)
  {
    var k2 := ApplyDstTake(cfg, k);
    InboxToken(k);
    NotReleased(k);
    DstTakePlace(cfg, k);
    assert !k.inbox[0].CopyComplete?;
    assert k.inbox[0].SlaveListStart? || k.inbox[0].MasterListDone? ==> k.srcWalk.None? && k.dstWalk.None?;
    hide RightPhase, OneToken, ReleaseInv, Owed, Where, InSync, Untouched, DstTakeAt;
    forall n | Open(s0, d0, k, n) && Owed(k, Where(k), n)
      ensures Owed(k2, Where(k2), n)
    {
      DstTakeOwes(cfg, s0, d0, k, n);
    }
    ControlKeeps(s0, d0, k, k2);
  }

  lemma DstAnswerKeeps(cfg: Config, s0: Store, d0: Store, k: State, a: Action)
    requires CoherentStores(s0, d0) && Inv(s0, d0, k) && !Aborted(k)
    requires (a.DstAnswer? || a.DstAnswered?) && Enabled(cfg, k, a)
    ensures Inv(s0, d0, Apply(cfg, k, a))
    ensures forall n :: InSync(k, n) ==> InSync(Apply(cfg, k, a), n)
  {
    var k2 := Apply(cfg, k, a);
    DstToken(k);
    NotReleased(k);
    assert Controls(k2) == [];
    assert OneToken(k2) && RightPhase(k2) && ReleaseInv(k2);
    var at2 := if a.DstAnswered? then Reply(k2.back[0]) else AtDst(k2.dstThread);
    assert Where(k2) == at2;
    assert k.srcWalk.Some?;
    forall n | Open(s0, d0, k, n) && Owed(k, AtDst(k.dstThread), n)
      ensures Owed(k2, at2, n)
    {
      OpenFacts(s0, d0, k, n);
    }
    ControlKeeps(s0, d0, k, k2);
  }

  lemma DstNextKeeps(cfg: Config, s0: Store, d0: Store, k: State, a: Action)
    requires CoherentStores(s0, d0) && Inv(s0, d0, k) && !Aborted(k) && cfg.chunk >= 1
    requires a.DstNext? && Enabled(cfg, k, a)
    ensures Inv(s0, d0, Apply(cfg, k, a))
    ensures forall n :: InSync(k, n) ==> InSync(Apply(cfg, k, a), n)
  {
    var k2 := Apply(cfg, k, a);
    DstToken(k);
    NotReleased(k);
    assert Controls(k2) == [];
    assert OneToken(k2) && RightPhase(k2) && ReleaseInv(k2);
    var at2 := if k2.dstThread.Idle? then Reply(k2.back[0]) else AtDst(k2.dstThread);
    assert Where(k2) == at2;
    assert k.srcWalk.None? && k.dstWalk.Some?;
    forall n | Open(s0, d0, k, n) && Owed(k, AtDst(k.dstThread), n)
      ensures Owed(k2, at2, n)
    {
      OpenFacts(s0, d0, k, n);
    }
    ControlKeeps(s0, d0, k, k2);
  }

  lemma DstListKeeps(cfg: Config, s0: Store, d0: Store, k: State, a: Action)
    requires CoherentStores(s0, d0) && Inv(s0, d0, k) && !Aborted(k)
    requires (a.DstList? || a.DstListed?) && Enabled(cfg, k, a)
    ensures Inv(s0, d0, Apply(cfg, k, a))
    ensures forall n :: InSync(k, n) ==> InSync(Apply(cfg, k, a), n)
  {
    var k2 := Apply(cfg, k, a);
    DstToken(k);
    NotReleased(k);
    assert Controls(k2) == [];
    assert OneToken(k2) && RightPhase(k2) && ReleaseInv(k2);
    var at2 := if k2.dstThread.Idle? then Reply(k2.back[0]) else AtDst(k2.dstThread);
    assert Where(k2) == at2;
    assert k.srcWalk.None? && k.dstWalk.Some?;
    forall n | Open(s0, d0, k, n) && Owed(k, AtDst(k.dstThread), n)
      ensures Owed(k2, at2, n)
    {
      OpenFacts(s0, d0, k, n);
    }
    ControlKeeps(s0, d0, k, k2);
  }

  /** The place the conversation moves to when the source takes a reply. */
  function SrcTakeAt(r: ToSrc): At {
    match r
    case BatonResponse(matches) => if matches then Finished else AtSrc(Locking(map[], {}))
    case SlaveList(uuids, nouuids) => AtSrc(Locking(uuids, nouuids))
    case SlaveListReady => Transit(SlaveListStart)
    case SlaveListDone => Finished
  }

  lemma SrcTakePlace(k: State)
    requires OneToken(k) && RightPhase(k) && ReleaseInv(k) && !Aborted(k) && k.back != []
    ensures var k2 := ApplySrcTake(k);
      OneToken(k2) && RightPhase(k2) && ReleaseInv(k2) && Where(k2) == SrcTakeAt(k.back[0])
  {
    var k2 := ApplySrcTake(k);
    BackToken(k);
    NotReleased(k);
    QueueControlsAppend(k.outq, QCtl(SlaveListStart));
    assert Controls(k2) == if k.back[0].SlaveListReady? then [SlaveListStart] else [];
  }

  lemma SrcTakeOwes(k: State, n: Name)
    requires k.back != [] && Owed(k, Reply(k.back[0]), n)
    requires !k.back[0].SlaveList? ==> k.srcWalk.None?
    requires k.back[0].SlaveListReady? || k.back[0].BatonResponse? ==> k.dstWalk.None?
    ensures Owed(ApplySrcTake(k), SrcTakeAt(k.back[0]), n)
  {
  }

  lemma SrcTakeKeeps(s0: Store, d0: Store, k: State)
    requires Inv(s0, d0, k) && !Aborted(k) && k.back != [] && k.srcThread.Waiting?
    ensures Inv(s0, d0, ApplySrcTake(k))
    ensures forall n :: InSync(k, n) ==> InSync(ApplySrcTake(k), n)
  {
    var k2 := ApplySrcTake(k);
    BackToken(k);
    NotReleased(k);
    SrcTakePlace(k);
    assert k.back[0].SlaveListReady? || k.back[0].BatonResponse? ==> k.srcWalk.None? && k.dstWalk.None?;
    hide RightPhase, OneToken, ReleaseInv, Where, Controls, Owed, Open, SrcTakeAt;
    forall n | Open(s0, d0, k, n) && Owed(k, Where(k), n)
      ensures Owed(k2, Where(k2), n)
    {
      SrcTakeOwes(k, n);
    }
    ControlKeeps(s0, d0, k, k2);
  }

  /** Whatever was committed before the first message is already on its way. */
  lemma SrcStartKeeps(s0: Store, d0: Store, k: State)
    requires Inv(s0, d0, k) && !Aborted(k) && k.srcThread.Starting?
    ensures Inv(s0, d0, ApplySrcStart(k))
    ensures forall n :: InSync(k, n) ==> InSync(ApplySrcStart(k), n)
  {
    var k2 := ApplySrcStart(k);
    SrcToken(k);
    NotReleased(k);
    QueueControlsAppend(k.outq, QCtl(BatonRequest));
    assert Controls(k2) == [BatonRequest];
    assert OneToken(k2) && RightPhase(k2) && ReleaseInv(k2) && Where(k2) == Transit(BatonRequest);
    hide RightPhase, OneToken, ReleaseInv, Where, Controls, Open;
    forall n | Open(s0, d0, k, n) && Owed(k, Where(k), n)
      ensures Owed(k2, Where(k2), n)
    {
    }
    ControlKeeps(s0, d0, k, k2);
  }

  lemma SrcLockKeeps(cfg: Config, s0: Store, d0: Store, k: State)
    requires Inv(s0, d0, k) && !Aborted(k) && Enabled(cfg, k, SrcLock)
    ensures Inv(s0, d0, Apply(cfg, k, SrcLock))
    ensures forall n :: InSync(k, n) ==> InSync(Apply(cfg, k, SrcLock), n)
  {
    var k2 := Apply(cfg, k, SrcLock);
    SrcToken(k);
    NotReleased(k);
    assert Controls(k2) == [];
    assert OneToken(k2) && RightPhase(k2) && ReleaseInv(k2) && Where(k2) == AtSrc(k2.srcThread);
    hide RightPhase, OneToken, ReleaseInv, Controls;
    ControlKeeps(s0, d0, k, k2);
  }

  /** A name the source need not send was in sync; a name it sends becomes so. */
  lemma SrcCompareKeeps(s0: Store, d0: Store, k: State, n: Name)
    requires Inv(s0, d0, k) && !Aborted(k) && k.srcThread.Comparing? && n in k.srcThread.todo
    ensures Inv(s0, d0, ApplySrcCompare(k, n))
    ensures forall m :: InSync(k, m) ==> InSync(ApplySrcCompare(k, n), m)
  {
    var k2 := ApplySrcCompare(k, n);
    SrcToken(k);
    NotReleased(k);
    QueueControlsAppend(k.outq, QObj(n));
    assert Controls(k2) == [];
    assert OneToken(k2) && RightPhase(k2) && ReleaseInv(k2) && Where(k2) == AtSrc(k2.srcThread);
    forall m | m != n && Owed(k, AtSrc(k.srcThread), m)
      ensures Owed(k2, AtSrc(k2.srcThread), m)
    {
    }
    var t := k.srcThread;
    hide RightPhase, OneToken, ReleaseInv, Where, Controls;
    if Mismatch(t.uuids, t.nouuids, n, Look(k.src, n)) {
      CompareSends(s0, d0, k, n);
    } else {
      ControlKeeps(s0, d0, k, k2);
    }
  }

  lemma CompareSends(s0: Store, d0: Store, k: State, n: Name)
    requires Inv(s0, d0, k) && !Aborted(k) && k.srcThread.Comparing? && k.released.None?
    requires Mismatch(k.srcThread.uuids, k.srcThread.nouuids, n, Look(k.src, n))
    requires Where(k) == AtSrc(k.srcThread)
    requires var k2 := ApplySrcCompare(k, n);
      && OneToken(k2) && RightPhase(k2) && ReleaseInv(k2) && Where(k2) == AtSrc(k2.srcThread)
      && forall m :: m != n && Owed(k, Where(k), m) ==> Owed(k2, Where(k2), m)
    ensures Inv(s0, d0, ApplySrcCompare(k, n))
    ensures forall m :: InSync(k, m) ==> InSync(ApplySrcCompare(k, n), m)
  {
    hide RightPhase, OneToken, ReleaseInv, Owed, Where, Touches, Look, Mismatch;
    var k2 := ApplySrcCompare(k, n);
    forall m
      ensures NameInv(s0, d0, k2, m)
      ensures InSync(k, m) ==> InSync(k2, m)
    {
      assert NameInv(s0, d0, k, m);
      assert k2.outq[|k.outq|] == QObj(n);
      if m != n {
        assert QObj(m) in k2.outq <==> QObj(m) in k.outq;
        NameFrame(s0, d0, k, k2, m);
      }
    }
  }

  /** The place the conversation moves to when the source asks for the next names. */
  function SrcNextAt(k: State, batch: set<Name>): At {
    if k.srcWalk.None? then Transit(MasterAck)
    else if batch == {} then Transit(MasterListDone)
    else AtSrc(BatchLocking(batch))
  }

  lemma SrcNextPlace(k: State, batch: set<Name>)
    requires OneToken(k) && RightPhase(k) && ReleaseInv(k) && !Aborted(k) && k.srcThread.Comparing?
    ensures var k2 := ApplySrcNext(k, batch);
      OneToken(k2) && RightPhase(k2) && ReleaseInv(k2) && Where(k2) == SrcNextAt(k, batch)
  {
    var k2 := ApplySrcNext(k, batch);
    SrcToken(k);
    NotReleased(k);
    var msg := if k.srcWalk.None? then MasterAck else MasterListDone;
    QueueControlsAppend(k.outq, QCtl(msg));
    assert Controls(k2) == if k.srcWalk.None? || batch == {} then [msg] else [];
  }

  lemma SrcNextOwes(chunk: nat, k: State, batch: set<Name>, n: Name)
    requires chunk >= 1 && k.srcThread.Comparing? && k.srcThread.todo == {}
    requires k.srcWalk.Some? ==> MayYield(k.srcWalk.value, batch, chunk) && k.dstWalk.None?
    requires k.srcWalk.None? ==> k.dstWalk.Some?
    requires Owed(k, AtSrc(k.srcThread), n)
    ensures Owed(ApplySrcNext(k, batch), SrcNextAt(k, batch), n)
  {
  }

  lemma SrcNextKeeps(cfg: Config, s0: Store, d0: Store, k: State, batch: set<Name>)
    requires Inv(s0, d0, k) && !Aborted(k) && cfg.chunk >= 1 && Enabled(cfg, k, SrcNext(batch))
    ensures Inv(s0, d0, ApplySrcNext(k, batch))
    ensures forall n :: InSync(k, n) ==> InSync(ApplySrcNext(k, batch), n)
  {
    var k2 := ApplySrcNext(k, batch);
    SrcToken(k);
    NotReleased(k);
    SrcNextPlace(k, batch);
    assert k.srcWalk.Some? <==> k.dstWalk.None?;
    hide RightPhase, OneToken, ReleaseInv, Where, Controls, Owed, Open, SrcNextAt;
    forall n | Open(s0, d0, k, n) && Owed(k, Where(k), n)
      ensures Owed(k2, Where(k2), n)
    {
      SrcNextOwes(cfg.chunk, k, batch, n);
    }
    ControlKeeps(s0, d0, k, k2);
  }

  lemma SrcReadKeeps(cfg: Config, s0: Store, d0: Store, k: State)
    requires Inv(s0, d0, k) && !Aborted(k) && Enabled(cfg, k, SrcRead)
    ensures Inv(s0, d0, ApplySrcRead(k))
    ensures forall n :: InSync(k, n) ==> InSync(ApplySrcRead(k), n)
  {
    var k2 := ApplySrcRead(k);
    SrcToken(k);
    NotReleased(k);
    assert Controls(k2) == [];
    assert OneToken(k2) && RightPhase(k2) && ReleaseInv(k2) && Where(k2) == AtSrc(k2.srcThread);
    hide RightPhase, OneToken, ReleaseInv, Where, Controls;
    forall n | Open(s0, d0, k, n) && Owed(k, Where(k), n)
      ensures Owed(k2, Where(k2), n)
    {
      hide Open;
    }
    ControlKeeps(s0, d0, k, k2);
  }

  /** Whatever was committed since the batch was read is already on its way. */
  lemma SrcSendKeeps(s0: Store, d0: Store, k: State)
    requires Inv(s0, d0, k) && !Aborted(k) && k.srcThread.Sending?
    ensures Inv(s0, d0, ApplySrcSend(k))
    ensures forall n :: InSync(k, n) ==> InSync(ApplySrcSend(k), n)
  {
    var k2 := ApplySrcSend(k);
    SrcToken(k);
    NotReleased(k);
    var msg := MasterList(k.srcThread.uuids);
    QueueControlsAppend(k.outq, QCtl(msg));
    assert Controls(k2) == [msg];
    assert OneToken(k2) && RightPhase(k2) && ReleaseInv(k2) && Where(k2) == Transit(msg);
    hide RightPhase, OneToken, ReleaseInv, Where, Controls;
    forall n | Open(s0, d0, k, n) && Owed(k, Where(k), n)
      ensures Owed(k2, Where(k2), n)
    {
      hide Open;
    }
    ControlKeeps(s0, d0, k, k2);
  }

  lemma ReleaseKeeps(s0: Store, d0: Store, k: State)
    requires Inv(s0, d0, k) && k.success && k.srcThread.Stopped? && k.released.None? && k.commitsLocked
    ensures Inv(s0, d0, ApplyRelease(k))
    ensures forall n :: InSync(k, n) ==> InSync(ApplyRelease(k), n)
  {
    var k2 := ApplyRelease(k);
    QueueControlsAppend(k.outq, QCtl(CopyComplete));
    assert Controls(k2) == [CopyComplete];
    assert OneToken(k2) && RightPhase(k2) && ReleaseInv(k2);
    hide RightPhase, OneToken, ReleaseInv, Controls, Owed, Look, Touches;
    forall n
      ensures InSync(k2, n)
    {
      assert NameInv(s0, d0, k, n);
      FinishedInSync(s0, d0, k, n);
      assert k2.outq == k.outq + [QCtl(CopyComplete)];
    }
  }
}
