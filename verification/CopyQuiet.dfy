/**
 The copy when nobody commits meanwhile: it sends exactly the objects on which
 the two repositories differ, each once, and it always comes to an end.
 */
module CopyQuiet {
  import opened Sets
  import opened Stores
  import opened CopyProtocol
  import opened CopySync
  import opened CopyTheorems

  /** The steps of the copy itself. */
  predicate OwnStep(a: Action) {
    !a.Commit? && !a.Forward? && !a.SrcAbort? && !a.LockCommits? && !a.UnlockCommits? && !a.Release?
  }

  predicate Differs(s0: Store, d0: Store, n: Name) {
    UuidOf(Look(s0, n)) != UuidOf(Look(d0, n))
  }

  predicate Pending(k: State, n: Name) {
    QObj(n) in k.outq || Touches(k.wire, n)
  }

  // ------------------------------------------------------------ the invariant of a quiet copy

  /** Nothing is behind the control message in flight, and nothing is in flight while it is handled. */
  predicate Flushed(k: State) {
    match Where(k)
    case Transit(_) =>
      if k.inbox != [] then k.outq == [] && k.wire == []
      else if k.outq != [] then k.outq[|k.outq| - 1].QCtl?
      else k.wire != [] && k.wire[|k.wire| - 1].WCtl?
    case AtSrc(t) => t.Locking? || t.Starting? ==> k.outq == [] && k.wire == []
    case Finished => true
    case _ => k.outq == [] && k.wire == []
  }

  /** What became of one name so far. */
  predicate Fate(s0: Store, d0: Store, k: State, n: Name) {
    if n in k.sent then
      Differs(s0, d0, n) && (k.dstWalk.None? ==> n in s0)
    else
      !Pending(k, n) && Look(k.dst, n) == Look(d0, n)
  }

  /** A name that one side has still to enumerate. */
  predicate ToEnumerate(s0: Store, d0: Store, k: State, n: Name) {
    && (InMust(k.srcWalk, n) ==> n in s0 && n !in k.sent)
    && (InMust(k.dstWalk, n) ==> (n in s0 || n in d0) && (n !in s0 ==> n !in k.sent))
  }

  /** A name asked about while the source enumerates. */
  predicate AskedOk(s0: Store, k: State, n: Name, u: Uuid) {
    n in s0 && u == s0[n].uuid && n !in k.sent && !InMust(k.srcWalk, n)
  }

  /** A name listed by the destination: in the first phase only if it must be sent, in the second as it is. */
  predicate ListedOk(s0: Store, d0: Store, k: State, n: Name, u: Option<Uuid>) {
    if k.srcWalk.Some? then
      n in s0 && n !in k.sent && !InMust(k.srcWalk, n) && u == UuidOf(Look(d0, n)) && Differs(s0, d0, n)
    else
      && !InMust(k.dstWalk, n)
      && (if n in s0 then u == Some(s0[n].uuid) else n in d0 && n !in k.sent && u.Some?)
  }

  /** A name the destination is about to list. */
  predicate ToListOk(s0: Store, d0: Store, k: State, n: Name) {
    !InMust(k.dstWalk, n) && (n !in s0 ==> n in d0 && n !in k.sent)
  }

  predicate ListOk(s0: Store, d0: Store, k: State, uuids: map<Name, Uuid>, nouuids: set<Name>) {
    && (forall n :: n in uuids ==> ListedOk(s0, d0, k, n, Some(uuids[n])))
    && (forall n :: n in nouuids ==> ListedOk(s0, d0, k, n, None))
  }

  predicate AskOk(s0: Store, k: State, asked: map<Name, Uuid>, todo: set<Name>) {
    forall n :: n in todo ==> n in asked && AskedOk(s0, k, n, asked[n])
  }

  predicate WillListOk(s0: Store, d0: Store, k: State, todo: set<Name>) {
    forall n :: n in todo ==> ToListOk(s0, d0, k, n)
  }

  predicate CompareOk(s0: Store, d0: Store, k: State, uuids: map<Name, Uuid>, nouuids: set<Name>, todo: set<Name>) {
    forall n :: n in todo ==>
      && (n in uuids || n in nouuids)
      && (n in uuids ==> ListedOk(s0, d0, k, n, Some(uuids[n])))
      && (n in nouuids ==> ListedOk(s0, d0, k, n, None))
  }

  predicate BatchOk(s0: Store, k: State, batch: set<Name>) {
    forall n :: n in batch ==> n in s0 && n !in k.sent && !InMust(k.srcWalk, n)
  }

  /** Every list on its way holds the truth. */
  predicate Lists(s0: Store, d0: Store, k: State, at: At) {
    match at
    case AtSrc(Starting) => k.sent == []
    case Transit(BatonRequest) => k.sent == []
    case Reply(BatonResponse(_)) => k.sent == []
    case Transit(MasterList(uuids)) => AskOk(s0, k, uuids, uuids.Keys)
    case AtDst(Answering(asked, todo, uuids, nouuids)) =>
      AskOk(s0, k, asked, todo) && ListOk(s0, d0, k, uuids, nouuids)
    case AtDst(Listing(todo, uuids)) =>
      WillListOk(s0, d0, k, todo) && ListOk(s0, d0, k, uuids, {})
    case Reply(SlaveList(uuids, nouuids)) => ListOk(s0, d0, k, uuids, nouuids)
    case AtSrc(Locking(uuids, nouuids)) => ListOk(s0, d0, k, uuids, nouuids)
    case AtSrc(Comparing(uuids, nouuids, todo)) => CompareOk(s0, d0, k, uuids, nouuids, todo)
    case AtSrc(BatchLocking(batch)) => BatchOk(s0, k, batch)
    case AtSrc(Sending(uuids)) => AskOk(s0, k, uuids, uuids.Keys)
    case _ => true
  }

  predicate ExactWalk(w: Option<Walk>) {
    w.Some? ==> w.value.may == w.value.must
  }

  /** Objects in flight are the source's; once the destination enumerates they are removals. */
  predicate Flight(s0: Store, k: State) {
    && (forall i :: 0 <= i < |k.wire| && k.wire[i].WObj? ==> k.wire[i].value == Look(s0, k.wire[i].name))
    && (k.dstWalk.Some? ==> forall n :: n in s0 ==> !Pending(k, n))
  }

  ghost predicate Quiet(s0: Store, d0: Store, k: State) {
    && k.src == s0 && k.released.None? && k.committing == {} && !Aborted(k)
    && Distinct(k.sent)
    && ExactWalk(k.srcWalk) && ExactWalk(k.dstWalk)
    && Flushed(k) && Flight(s0, k)
    && Lists(s0, d0, k, Where(k))
    && forall n :: Fate(s0, d0, k, n) && ToEnumerate(s0, d0, k, n)
  }

  // ------------------------------------------------------------ preservation

  lemma QuietInit(cfg: Config, s0: Store, d0: Store)
    requires Start(cfg, s0, d0)
    ensures Quiet(s0, d0, Init(s0, d0))
  {
    assert Controls(Init(s0, d0)) == [] && Where(Init(s0, d0)) == AtSrc(Starting);
  }

  lemma ListsFrame(s0: Store, d0: Store, k: State, k2: State, at: At)
    requires k2.sent == k.sent && k2.srcWalk == k.srcWalk && k2.dstWalk == k.dstWalk
    ensures Lists(s0, d0, k, at) ==> Lists(s0, d0, k2, at)
  {
  }

  lemma FlushedSerialize(k: State)
    requires OneToken(k) && RightPhase(k) && Flushed(k) && !Aborted(k) && k.outq != []
    ensures Where(ApplySerialize(k)) == Where(k) && Flushed(ApplySerialize(k))
  {
    var k2 := ApplySerialize(k);
    var w := k2.wire[|k.wire|];
    WireControlsAppend(k.wire, w);
    assert Controls(k2) == Controls(k);
    PlaceFrame(k, k2);
    hide RightPhase, OneToken, Controls, Where;
    assert w.WCtl? <==> k.outq[0].QCtl?;
  }

  lemma QuietSerialize(s0: Store, d0: Store, k: State)
    requires Inv(s0, d0, k) && Quiet(s0, d0, k) && k.outq != []
    ensures Quiet(s0, d0, ApplySerialize(k))
  {
    hide OneToken, RightPhase, NameInv, Where, Lists, Touches, Look, Controls, Flushed;
    var k2 := ApplySerialize(k);
    FlushedSerialize(k);
    ListsFrame(s0, d0, k, k2, Where(k));
    forall n
      ensures Fate(s0, d0, k2, n) && ToEnumerate(s0, d0, k2, n)
      ensures Pending(k2, n) ==> Pending(k, n)
    {
      assert Fate(s0, d0, k, n) && ToEnumerate(s0, d0, k, n);
      SerializeName(k, n);
    }
  }

  lemma FlushedDeliver(k: State)
    requires OneToken(k) && RightPhase(k) && ReleaseInv(k) && Flushed(k) && !Aborted(k) && k.wire != [] && k.released.None?
    ensures !(k.wire[0].WCtl? && k.wire[0].msg.CopyComplete?)
    ensures Where(ApplyDeliver(k)) == Where(k) && Flushed(ApplyDeliver(k))
  {
    hide Put, ApplyDeliver;
    var k2 := ApplyDeliver(k);
    DeliverFields(k);
    DeliverControls(k);
    if k.wire[0].WCtl? {
      if k.wire[0].msg.CopyComplete? {
        DeliverFinal(k);
      } else {
        AloneInFlight(k);
      }
    }
  }

  /** A control message at the head of the wire has nothing behind it. */
  lemma AloneInFlight(k: State)
    requires OneToken(k) && RightPhase(k) && ReleaseInv(k) && Flushed(k) && !Aborted(k) && k.released.None?
    requires k.wire != [] && k.wire[0].WCtl?
    ensures k.outq == [] && k.wire[1..] == []
  {
    hide RightPhase, ReleaseInv;
    assert WireControls(k.wire) == [k.wire[0].msg] + WireControls(k.wire[1..]);
    assert k.wire[0].msg in Controls(k);
    if k.success {
      SuccessQuiet(k);
    } else {
      assert |Controls(k)| == 1;
      if k.outq != [] {
        LastQueued(k.outq);
      } else if k.wire[1..] != [] {
        LastWired(k.wire[1..]);
      }
    }
  }

  lemma SuccessQuiet(k: State)
    requires ReleaseInv(k) && k.success && k.released.None?
    ensures Controls(k) == []
  {
  }

  lemma QuietDeliver(s0: Store, d0: Store, k: State)
    requires Inv(s0, d0, k) && Quiet(s0, d0, k) && k.wire != []
    ensures Quiet(s0, d0, ApplyDeliver(k))
  {
    hide OneToken, RightPhase, NameInv, ReleaseInv, Where, Lists, Touches, Look, Controls, Flushed, ApplyDeliver, Put, LockInv;
    var k2 := ApplyDeliver(k);
    var w := k.wire[0];
    DeliverFields(k);
    FlushedDeliver(k);
    assert k.wire == [w] + k2.wire;
    if w.WObj? {
      QuietObject(s0, d0, k);
    }
    assert k2.dstWalk == k.dstWalk;
    ListsFrame(s0, d0, k, k2, Where(k));
    forall n
      ensures Fate(s0, d0, k2, n) && ToEnumerate(s0, d0, k2, n)
      ensures Pending(k2, n) ==> Pending(k, n)
    {
      assert Fate(s0, d0, k, n) && ToEnumerate(s0, d0, k, n);
      DeliverName(k, n);
    }
  }

  /** An object that arrives was sent, and the destination's walk is past it. */
  lemma QuietObject(s0: Store, d0: Store, k: State)
    requires Quiet(s0, d0, k) && k.wire != [] && k.wire[0].WObj?
    ensures k.wire[0].name in k.sent
    ensures Observe(k.dstWalk, k.wire[0].name in k.dst, k.wire[0].name, k.wire[0].value) == k.dstWalk
  {
    hide Lists, Flushed, Where;
    var w := k.wire[0];
    assert Carries(k.wire[0], w.name);
    assert Fate(s0, d0, k, w.name) && ToEnumerate(s0, d0, k, w.name);
    if k.dstWalk.Some? {
      assert w.name !in s0;
      assert k.dstWalk.value.must - {w.name} == k.dstWalk.value.must;
    }
  }

  /** A step of the conversation alone keeps the fate of every name. */
  lemma QuietControl(s0: Store, d0: Store, k: State, k2: State)
    requires Quiet(s0, d0, k)
    requires k2.src == k.src && k2.dst == k.dst && k2.wire == k.wire && k2.sent == k.sent
    requires k2.released.None? && k2.committing == {} && !Aborted(k2)
    requires k2.outq == k.outq
      || (|k2.outq| == |k.outq| + 1 && k2.outq[..|k.outq|] == k.outq && k2.outq[|k.outq|].QCtl?)
    requires k2.dstWalk.None? ==> k.dstWalk.None?
    requires k2.dstWalk.Some? ==> k.dstWalk.Some? || (k.outq == [] && k.wire == [])
    requires ExactWalk(k2.srcWalk) && ExactWalk(k2.dstWalk)
    requires Flushed(k2) && Lists(s0, d0, k2, Where(k2))
    requires forall n :: ToEnumerate(s0, d0, k2, n)
    ensures Quiet(s0, d0, k2)
  {
    hide Lists, Flushed, Where, ToEnumerate, Look, Touches, Differs;
    forall n
      ensures Fate(s0, d0, k2, n)
      ensures Pending(k2, n) <==> Pending(k, n)
    {
      assert Fate(s0, d0, k, n);
      if k2.outq != k.outq {
        assert k2.outq == k.outq + [k2.outq[|k.outq|]];
      }
    }
    assert k2.dstWalk.Some? && k.dstWalk.None? ==> forall n :: !Pending(k, n) by {
      NothingPending(k);
    }
  }

  lemma NothingPending(k: State)
    ensures k.outq == [] && k.wire == [] ==> forall n :: !Pending(k, n)
  {
  }

  lemma QuietDstTake(cfg: Config, s0: Store, d0: Store, k: State)
    requires Inv(s0, d0, k) && Quiet(s0, d0, k) && k.inbox != []
    ensures Quiet(s0, d0, ApplyDstTake(cfg, k))
  {
    var k2 := ApplyDstTake(cfg, k);
    var at2 := DstTakeAt(cfg, k.inbox[0]);
    InboxToken(k);
    DstTakePlace(cfg, k);
    hide OneToken, RightPhase, ReleaseInv, LockInv, NameInv, Where, Controls;
    assert k.outq == [] && k.wire == [];
    assert Flushed(k2) && !Aborted(k2);
    QuietDstTakeLists(cfg, s0, d0, k);
    QuietControl(s0, d0, k, k2);
  }

  lemma DstTakeLists(cfg: Config, s0: Store, d0: Store, k: State)
    requires k.inbox != [] && Lists(s0, d0, k, Transit(k.inbox[0])) && !k.inbox[0].CopyComplete?
    ensures Lists(s0, d0, ApplyDstTake(cfg, k), DstTakeAt(cfg, k.inbox[0]))
  {
    hide Differs, Look, StartWalk;
    match k.inbox[0]
    case MasterList(uuids) =>
    case _ =>
  }

  lemma QuietDstTakeLists(cfg: Config, s0: Store, d0: Store, k: State)
    requires k.inbox != [] && ExactWalk(k.dstWalk)
    requires Lists(s0, d0, k, Transit(k.inbox[0]))
    requires forall n :: Fate(s0, d0, k, n) && ToEnumerate(s0, d0, k, n)
    requires k.inbox[0].SlaveListStart? ==> k.dstWalk.None?
    requires !k.inbox[0].CopyComplete?
    ensures var k2 := ApplyDstTake(cfg, k);
      && Lists(s0, d0, k2, DstTakeAt(cfg, k.inbox[0])) && ExactWalk(k2.dstWalk)
      && forall n :: ToEnumerate(s0, d0, k2, n)
  {
    hide Lists, DstTakeAt, Fate, ApplyDstTake;
    var k2 := ApplyDstTake(cfg, k);
    DstTakeLists(cfg, s0, d0, k);
    DstTakeWalks(cfg, k);
    forall n
      ensures ToEnumerate(s0, d0, k2, n)
    {
      assert Fate(s0, d0, k, n) && ToEnumerate(s0, d0, k, n);
      if k.inbox[0].SlaveListStart? {
        StartedWalk(cfg, s0, d0, k, n);
      }
    }
  }

  lemma DstTakeWalks(cfg: Config, k: State)
    requires k.inbox != []
    ensures var k2 := ApplyDstTake(cfg, k);
      && k2.sent == k.sent && k2.srcWalk == k.srcWalk
      && k2.dstWalk == if k.inbox[0].SlaveListStart? then Some(StartWalk(k.dst)) else k.dstWalk
  {
  }

  lemma StartedWalk(cfg: Config, s0: Store, d0: Store, k: State, n: Name)
    requires k.inbox != [] && k.inbox[0].SlaveListStart? && k.dstWalk.None?
    requires Fate(s0, d0, k, n) && ToEnumerate(s0, d0, k, n)
    ensures ToEnumerate(s0, d0, ApplyDstTake(cfg, k), n)
  {
    hide Differs, Pending;
    if n in k.dst && n !in k.sent {
      assert Look(k.dst, n) == Look(d0, n);
    }
  }

  lemma QuietAnswer(cfg: Config, s0: Store, d0: Store, k: State, a: Action)
    requires CoherentStores(s0, d0) && Inv(s0, d0, k) && Quiet(s0, d0, k)
    requires (a.DstAnswer? || a.DstAnswered?) && Enabled(cfg, k, a)
    ensures Quiet(s0, d0, Apply(cfg, k, a))
  {
    var k2 := Apply(cfg, k, a);
    var at2 := if a.DstAnswered? then Reply(k2.back[0]) else AtDst(k2.dstThread);
    DstToken(k);
    NotReleased(k);
    assert Controls(k2) == [] && Where(k2) == at2;
    assert k.srcWalk.Some?;
    hide OneToken, RightPhase, ReleaseInv, LockInv, NameInv, Where, Controls;
    assert k.outq == [] && k.wire == [] && Flushed(k2);
    var t := k.dstThread;
    assert Lists(s0, d0, k2, at2) by {
      if a.DstAnswer? {
        assert AskedOk(s0, k, a.n, t.asked[a.n]) && Fate(s0, d0, k, a.n);
      }
    }
    forall n
      ensures ToEnumerate(s0, d0, k2, n)
    {
      assert ToEnumerate(s0, d0, k, n);
    }
    QuietControl(s0, d0, k, k2);
  }

  lemma QuietDstNext(cfg: Config, s0: Store, d0: Store, k: State, batch: set<Name>)
    requires Inv(s0, d0, k) && Quiet(s0, d0, k) && Enabled(cfg, k, DstNext(batch))
    ensures Quiet(s0, d0, ApplyDstNext(k, batch))
  {
    var k2 := ApplyDstNext(k, batch);
    var at2 := if batch == {} then Reply(SlaveListDone) else AtDst(k2.dstThread);
    DstToken(k);
    NotReleased(k);
    assert Controls(k2) == [] && Where(k2) == at2;
    hide OneToken, RightPhase, ReleaseInv, LockInv, NameInv, Where, Controls;
    assert k.outq == [] && k.wire == [] && Flushed(k2);
    forall n
      ensures ToEnumerate(s0, d0, k2, n)
      ensures n in batch ==> ToListOk(s0, d0, k2, n)
    {
      assert ToEnumerate(s0, d0, k, n);
    }
    QuietControl(s0, d0, k, k2);
  }

  /** Once the destination enumerates, it already has what the source has of every name the source has. */
  lemma SecondPhaseHas(s0: Store, d0: Store, k: State, n: Name)
    requires Inv(s0, d0, k) && Quiet(s0, d0, k) && k.dstThread.Listing? && n in s0
    ensures Look(k.dst, n) == Look(s0, n)
  {
    DstToken(k);
    NotReleased(k);
    assert NameInv(s0, d0, k, n);
  }

  lemma QuietList(cfg: Config, s0: Store, d0: Store, k: State, a: Action)
    requires Inv(s0, d0, k) && Quiet(s0, d0, k)
    requires (a.DstList? || a.DstListed?) && Enabled(cfg, k, a)
    ensures Quiet(s0, d0, Apply(cfg, k, a))
  {
    var k2 := Apply(cfg, k, a);
    var at2 := if a.DstListed? then Reply(k2.back[0]) else AtDst(k2.dstThread);
    DstToken(k);
    NotReleased(k);
    assert Controls(k2) == [] && Where(k2) == at2;
    assert k.srcWalk.None?;
    if a.DstList? && a.n in s0 {
      SecondPhaseHas(s0, d0, k, a.n);
    }
    hide OneToken, RightPhase, ReleaseInv, LockInv, NameInv, Where, Controls;
    assert k.outq == [] && k.wire == [] && Flushed(k2);
    assert Lists(s0, d0, k2, at2) by {
      if a.DstList? {
        assert ToListOk(s0, d0, k, a.n) && Fate(s0, d0, k, a.n);
      }
    }
    forall n
      ensures ToEnumerate(s0, d0, k2, n)
    {
      assert ToEnumerate(s0, d0, k, n);
    }
    QuietControl(s0, d0, k, k2);
  }

  lemma SrcTakeLists(s0: Store, d0: Store, k: State)
    requires k.back != [] && Lists(s0, d0, k, Reply(k.back[0]))
    ensures Lists(s0, d0, ApplySrcTake(k), SrcTakeAt(k.back[0]))
  {
    hide ListOk, Differs, Look, StartWalk;
    if k.back[0].SlaveList? {
      var at := AtSrc(Locking(k.back[0].uuids, k.back[0].nouuids));
      assert Lists(s0, d0, k, at);
      ListsFrame(s0, d0, k, ApplySrcTake(k), at);
    } else {
      NothingListed(s0, d0, ApplySrcTake(k));
    }
  }

  lemma NothingListed(s0: Store, d0: Store, k: State)
    ensures ListOk(s0, d0, k, map[], {})
  {
  }

  lemma QuietSrcTakeLists(s0: Store, d0: Store, k: State)
    requires k.back != [] && k.src == s0 && ExactWalk(k.srcWalk)
    requires Lists(s0, d0, k, Reply(k.back[0]))
    requires forall n :: ToEnumerate(s0, d0, k, n)
    ensures var k2 := ApplySrcTake(k);
      && Lists(s0, d0, k2, SrcTakeAt(k.back[0])) && ExactWalk(k2.srcWalk)
      && forall n :: ToEnumerate(s0, d0, k2, n)
  {
    SrcTakeLists(s0, d0, k);
    assert k.back[0].BatonResponse? ==> k.sent == [];
    hide SrcTakeAt, Lists;
    var k2 := ApplySrcTake(k);
    forall n
      ensures ToEnumerate(s0, d0, k2, n)
    {
      assert ToEnumerate(s0, d0, k, n);
    }
  }

  lemma QuietSrcTake(s0: Store, d0: Store, k: State)
    requires Inv(s0, d0, k) && Quiet(s0, d0, k) && k.back != []
    ensures Quiet(s0, d0, ApplySrcTake(k))
  {
    var k2 := ApplySrcTake(k);
    BackToken(k);
    NotReleased(k);
    SrcTakePlace(k);
    hide OneToken, RightPhase, ReleaseInv, LockInv, NameInv, Where, Controls, Lists, ToEnumerate, Fate, Flight;
    assert k.outq == [] && k.wire == [] && Flushed(k2) && !Aborted(k2);
    QuietSrcTakeLists(s0, d0, k);
    hide SrcTakeAt, Flushed;
    QuietControl(s0, d0, k, k2);
  }

  lemma QuietLock(cfg: Config, s0: Store, d0: Store, k: State)
    requires Inv(s0, d0, k) && Quiet(s0, d0, k) && Enabled(cfg, k, SrcLock)
    ensures Quiet(s0, d0, Apply(cfg, k, SrcLock))
  {
    var k2 := Apply(cfg, k, SrcLock);
    SrcToken(k);
    NotReleased(k);
    assert Controls(k2) == [] && Where(k2) == AtSrc(k2.srcThread);
    hide OneToken, RightPhase, ReleaseInv, LockInv, NameInv, Where, Controls;
    assert Flushed(k2);
    forall n
      ensures ToEnumerate(s0, d0, k2, n)
    {
      assert ToEnumerate(s0, d0, k, n);
    }
    QuietControl(s0, d0, k, k2);
  }

  /** What is known of a listed name when the source compares it. */
  lemma CompareFacts(s0: Store, d0: Store, k: State, n: Name)
    requires k.src == s0 && (k.srcWalk.Some? <==> k.dstWalk.None?)
    requires k.srcThread.Comparing? && n in k.srcThread.todo
    requires Lists(s0, d0, k, AtSrc(k.srcThread))
    requires Mismatch(k.srcThread.uuids, k.srcThread.nouuids, n, Look(k.src, n))
    ensures n !in k.sent && !InMust(k.srcWalk, n) && !InMust(k.dstWalk, n) && Differs(s0, d0, n)
    ensures n in s0 <==> k.dstWalk.None?
  {
    var t := k.srcThread;
    if n in t.uuids {
      assert ListedOk(s0, d0, k, n, Some(t.uuids[n]));
    } else {
      assert ListedOk(s0, d0, k, n, None);
    }
  }

  lemma CompareLists(s0: Store, d0: Store, k: State, n: Name)
    requires k.srcThread.Comparing? && Lists(s0, d0, k, AtSrc(k.srcThread))
    ensures var k2 := ApplySrcCompare(k, n); Lists(s0, d0, k2, AtSrc(k2.srcThread))
  {
    var k2 := ApplySrcCompare(k, n);
    var t := k.srcThread;
    assert CompareOk(s0, d0, k, t.uuids, t.nouuids, t.todo);
    CompareOkNext(s0, d0, k, n);
    assert k2.srcThread == Comparing(t.uuids, t.nouuids, t.todo - {n});
  }

  lemma CompareOkNext(s0: Store, d0: Store, k: State, n: Name)
    requires k.srcThread.Comparing?
    requires CompareOk(s0, d0, k, k.srcThread.uuids, k.srcThread.nouuids, k.srcThread.todo)
    ensures CompareOk(s0, d0, ApplySrcCompare(k, n), k.srcThread.uuids, k.srcThread.nouuids, k.srcThread.todo - {n})
  {
    SrcCompareWalks(k, n);
    hide Differs, Look, Mismatch, ApplySrcCompare;
    var k2 := ApplySrcCompare(k, n);
    forall m, u | m != n
      ensures ListedOk(s0, d0, k, m, u) ==> ListedOk(s0, d0, k2, m, u)
    {
    }
  }

  lemma SrcCompareWalks(k: State, n: Name)
    requires k.srcThread.Comparing?
    ensures var k2 := ApplySrcCompare(k, n);
      && k2.srcWalk == k.srcWalk && k2.dstWalk == k.dstWalk
      && (k2.sent == k.sent || k2.sent == k.sent + [n])
  {
  }

  lemma CompareControl(k: State, n: Name)
    requires OneToken(k) && RightPhase(k) && !Aborted(k) && ReleaseInv(k) && k.srcThread.Comparing?
    ensures var k2 := ApplySrcCompare(k, n); Where(k2) == AtSrc(k2.srcThread) && Flushed(k2)
    ensures Where(k) == AtSrc(k.srcThread) && (k.srcWalk.Some? <==> k.dstWalk.None?)
  {
    SrcToken(k);
    NotReleased(k);
    hide OneToken, ReleaseInv, Flushed;
    CompareWhere(k, n);
    StillComparing(ApplySrcCompare(k, n));
  }

  lemma CompareWhere(k: State, n: Name)
    requires k.srcThread.Comparing? && !k.success && Controls(k) == [] && k.back == [] && k.dstThread.Idle?
    ensures var k2 := ApplySrcCompare(k, n); k2.srcThread.Comparing? && Where(k2) == AtSrc(k2.srcThread)
  {
    hide Mismatch, Look;
    QueueControlsAppend(k.outq, QObj(n));
    assert Controls(ApplySrcCompare(k, n)) == [];
  }

  lemma StillComparing(k: State)
    requires k.srcThread.Comparing? && Where(k) == AtSrc(k.srcThread)
    ensures Flushed(k)
  {
    hide Where;
  }

  lemma QuietCompare(s0: Store, d0: Store, k: State, n: Name)
    requires Inv(s0, d0, k) && Quiet(s0, d0, k) && k.srcThread.Comparing? && n in k.srcThread.todo
    ensures Quiet(s0, d0, ApplySrcCompare(k, n))
  {
    hide OneToken, RightPhase, ReleaseInv, LockInv, NameInv, Where, Flushed, Lists, Mismatch, Look, Differs, Touches;
    var k2 := ApplySrcCompare(k, n);
    CompareControl(k, n);
    CompareLists(s0, d0, k, n);
    if Mismatch(k.srcThread.uuids, k.srcThread.nouuids, n, Look(k.src, n)) {
      CompareFacts(s0, d0, k, n);
      assert k2.outq == k.outq + [QObj(n)] && k2.sent == k.sent + [n];
      forall m
        ensures Fate(s0, d0, k2, m) && ToEnumerate(s0, d0, k2, m)
        ensures m != n && Pending(k2, m) ==> Pending(k, m)
      {
        assert Fate(s0, d0, k, m) && ToEnumerate(s0, d0, k, m);
      }
    } else {
      forall m
        ensures ToEnumerate(s0, d0, k2, m)
      {
        assert ToEnumerate(s0, d0, k, m);
      }
      QuietControl(s0, d0, k, k2);
    }
  }

  lemma SrcNextControl(k: State, batch: set<Name>)
    requires OneToken(k) && RightPhase(k) && ReleaseInv(k) && !Aborted(k) && k.srcThread.Comparing?
    ensures var k2 := ApplySrcNext(k, batch);
      && Where(k2) == SrcNextAt(k, batch) && Flushed(k2) && !Aborted(k2) && k.released.None?
    ensures k.srcWalk.Some? ==> k.dstWalk.None?
  {
    SrcToken(k);
    NotReleased(k);
    SrcNextPlace(k, batch);
    hide OneToken, RightPhase, ReleaseInv, Where, Controls;
    assert Where(ApplySrcNext(k, batch)) == SrcNextAt(k, batch);
  }

  lemma SrcNextFields(k: State, batch: set<Name>)
    ensures var k2 := ApplySrcNext(k, batch);
      && k2.src == k.src && k2.dst == k.dst && k2.wire == k.wire && k2.sent == k.sent && k2.dstWalk == k.dstWalk
      && k2.released == k.released && k2.committing == k.committing
      && k2.srcWalk == (if k.srcWalk.None? || batch == {} then None else Some(Yield(k.srcWalk.value, batch)))
      && (k2.outq == k.outq
          || (|k2.outq| == |k.outq| + 1 && k2.outq[..|k.outq|] == k.outq && k2.outq[|k.outq|].QCtl?))
  {
  }

  lemma SrcNextLists(cfg: Config, s0: Store, d0: Store, k: State, batch: set<Name>)
    requires ExactWalk(k.srcWalk) && (k.srcWalk.Some? ==> MayYield(k.srcWalk.value, batch, cfg.chunk))
    requires forall n :: ToEnumerate(s0, d0, k, n)
    ensures var k2 := ApplySrcNext(k, batch);
      && Lists(s0, d0, k2, SrcNextAt(k, batch)) && ExactWalk(k2.srcWalk)
      && forall n :: ToEnumerate(s0, d0, k2, n)
  {
    var k2 := ApplySrcNext(k, batch);
    SrcNextFields(k, batch);
    hide ApplySrcNext, ListOk, CompareOk, WillListOk, AskOk;
    forall n
      ensures ToEnumerate(s0, d0, k2, n)
      ensures n in batch && k.srcWalk.Some? ==> n in s0 && n !in k.sent && !InMust(k2.srcWalk, n)
    {
      assert ToEnumerate(s0, d0, k, n);
    }
  }

  lemma QuietSrcNext(cfg: Config, s0: Store, d0: Store, k: State, batch: set<Name>)
    requires Inv(s0, d0, k) && Quiet(s0, d0, k) && Enabled(cfg, k, SrcNext(batch))
    ensures Quiet(s0, d0, ApplySrcNext(k, batch))
  {
    hide OneToken, RightPhase, ReleaseInv, LockInv, NameInv, Where, Lists, SrcNextAt, Fate, Flight, Flushed, ApplySrcNext;
    SrcNextControl(k, batch);
    SrcNextFields(k, batch);
    SrcNextLists(cfg, s0, d0, k, batch);
    hide ToEnumerate;
    QuietControl(s0, d0, k, ApplySrcNext(k, batch));
  }

  lemma QuietRead(cfg: Config, s0: Store, d0: Store, k: State)
    requires Inv(s0, d0, k) && Quiet(s0, d0, k) && Enabled(cfg, k, SrcRead)
    ensures Quiet(s0, d0, ApplySrcRead(k))
  {
    var k2 := ApplySrcRead(k);
    SrcToken(k);
    NotReleased(k);
    assert Controls(k2) == [] && Where(k2) == AtSrc(k2.srcThread);
    hide OneToken, RightPhase, ReleaseInv, LockInv, NameInv, Where, Controls;
    assert Flushed(k2);
    forall n
      ensures ToEnumerate(s0, d0, k2, n)
    {
      assert ToEnumerate(s0, d0, k, n);
    }
    QuietControl(s0, d0, k, k2);
  }

  lemma SendPlace(k: State)
    requires OneToken(k) && RightPhase(k) && ReleaseInv(k) && !Aborted(k) && k.srcThread.Sending?
    ensures Where(k) == AtSrc(k.srcThread) && Where(ApplySrcSend(k)) == Transit(MasterList(k.srcThread.uuids))
    ensures k.inbox == [] && !Aborted(ApplySrcSend(k))
  {
    SrcToken(k);
    NotReleased(k);
    QueueControlsAppend(k.outq, QCtl(MasterList(k.srcThread.uuids)));
    assert Controls(ApplySrcSend(k)) == [MasterList(k.srcThread.uuids)];
  }

  lemma QuietSend(s0: Store, d0: Store, k: State)
    requires Inv(s0, d0, k) && Quiet(s0, d0, k) && k.srcThread.Sending?
    ensures Quiet(s0, d0, ApplySrcSend(k))
  {
    var k2 := ApplySrcSend(k);
    SendPlace(k);
    hide OneToken, RightPhase, ReleaseInv, LockInv, NameInv, Where, Controls;
    assert Flushed(k2);
    forall n
      ensures ToEnumerate(s0, d0, k2, n)
    {
      assert ToEnumerate(s0, d0, k, n);
    }
    QuietControl(s0, d0, k, k2);
  }

  lemma QuietStart(s0: Store, d0: Store, k: State)
    requires Inv(s0, d0, k) && Quiet(s0, d0, k) && k.srcThread.Starting?
    ensures Quiet(s0, d0, ApplySrcStart(k))
  {
    var k2 := ApplySrcStart(k);
    StartPlace(k);
    hide OneToken, RightPhase, ReleaseInv, LockInv, NameInv, Where, Controls;
    assert Flushed(k2);
    forall n
      ensures ToEnumerate(s0, d0, k2, n)
    {
      assert ToEnumerate(s0, d0, k, n);
    }
    QuietControl(s0, d0, k, k2);
  }

  lemma StartPlace(k: State)
    requires OneToken(k) && RightPhase(k) && ReleaseInv(k) && !Aborted(k) && k.srcThread.Starting?
    ensures Where(k) == AtSrc(Starting) && Where(ApplySrcStart(k)) == Transit(BatonRequest)
    ensures k.inbox == [] && !Aborted(ApplySrcStart(k))
  {
    SrcToken(k);
    NotReleased(k);
    QueueControlsAppend(k.outq, QCtl(BatonRequest));
    assert Controls(ApplySrcStart(k)) == [BatonRequest];
  }

  lemma QuietStep(cfg: Config, s0: Store, d0: Store, k: State, a: Action)
    requires Start(cfg, s0, d0) && Inv(s0, d0, k) && Quiet(s0, d0, k)
    requires OwnStep(a) && Enabled(cfg, k, a)
    ensures Quiet(s0, d0, Apply(cfg, k, a))
  {
    hide Inv, Quiet;
    match a
    case Serialize => QuietSerialize(s0, d0, k);
    case Deliver => QuietDeliver(s0, d0, k);
    case DstTake => QuietDstTake(cfg, s0, d0, k);
    case DstAnswer(_) => QuietAnswer(cfg, s0, d0, k, a);
    case DstAnswered => QuietAnswer(cfg, s0, d0, k, a);
    case DstNext(batch) => QuietDstNext(cfg, s0, d0, k, batch);
    case DstList(_) => QuietList(cfg, s0, d0, k, a);
    case DstListed => QuietList(cfg, s0, d0, k, a);
    case SrcStart => QuietStart(s0, d0, k);
    case SrcTake => QuietSrcTake(s0, d0, k);
    case SrcLock => QuietLock(cfg, s0, d0, k);
    case SrcCompare(n) => QuietCompare(s0, d0, k, n);
    case SrcNext(batch) => QuietSrcNext(cfg, s0, d0, k, batch);
    case SrcRead => QuietRead(cfg, s0, d0, k);
    case SrcSend => QuietSend(s0, d0, k);
  }

  ghost predicate OwnRun(acts: seq<Action>) {
    forall i :: 0 <= i < |acts| ==> OwnStep(acts[i])
  }

  lemma {:induction false} QuietRun(cfg: Config, s0: Store, d0: Store, k: State, acts: seq<Action>, k2: State)
    requires Start(cfg, s0, d0) && cfg.chunk >= 1 && OwnRun(acts)
    requires CopyInv(cfg, s0, d0, k) && Quiet(s0, d0, k) && Runs(cfg, k, acts, k2)
    ensures CopyInv(cfg, s0, d0, k2) && Quiet(s0, d0, k2)
    decreases |acts|
  {
    if acts != [] {
      assert OwnStep(acts[0]);
      assert !Aborted(k);
      QuietStep(cfg, s0, d0, k, acts[0]);
      StepKeeps(cfg, s0, d0, k, acts[0]);
      assert forall i :: 0 <= i < |acts[1..]| ==> acts[1..][i] == acts[i + 1];
      hide Quiet, CopyInv, Start;
      QuietRun(cfg, s0, d0, Apply(cfg, k, acts[0]), acts[1..], k2);
    }
  }

  ghost predicate QuietlyReaches(cfg: Config, s0: Store, d0: Store, acts: seq<Action>, k: State) {
    Reaches(cfg, s0, d0, acts, k) && OwnRun(acts)
  }

  lemma QuietReachesInv(cfg: Config, s0: Store, d0: Store, acts: seq<Action>, k: State)
    requires cfg.chunk >= 1 && QuietlyReaches(cfg, s0, d0, acts, k)
    ensures CopyInv(cfg, s0, d0, k) && Quiet(s0, d0, k)
  {
    InitHolds(cfg, s0, d0);
    QuietInit(cfg, s0, d0);
    QuietRun(cfg, s0, d0, Init(s0, d0), acts, k);
  }

  /**
   A copy nobody interferes with sends no object twice and none that does not
   differ; when it succeeds it has sent every object that is missing, extra or
   has another uuid.
   */
  lemma SendsExactlyTheDifferences(cfg: Config, s0: Store, d0: Store, acts: seq<Action>, k: State)
    requires cfg.chunk >= 1 && QuietlyReaches(cfg, s0, d0, acts, k)
    ensures forall i, j :: 0 <= i < j < |k.sent| ==> k.sent[i] != k.sent[j]
    ensures forall n :: n in k.sent ==> UuidOf(Look(s0, n)) != UuidOf(Look(d0, n))
    ensures k.success ==> forall n :: n in k.sent <==> UuidOf(Look(s0, n)) != UuidOf(Look(d0, n))
  {
    QuietReachesInv(cfg, s0, d0, acts, k);
    forall n
      ensures n in k.sent ==> Differs(s0, d0, n)
      ensures k.success && Differs(s0, d0, n) ==> n in k.sent
    {
      assert Fate(s0, d0, k, n) && NameInv(s0, d0, k, n);
      if k.success && n !in k.sent {
        FinishedInSync(s0, d0, k, n);
        NetUntouched(k.wire, Look(k.dst, n), n);
      }
    }
  }
}
