/** A copy nobody interferes with comes to an end, and only ever by succeeding. */
module CopyEnds {
  import opened Sets
  import opened Stores
  import opened CopyProtocol
  import opened CopySync
  import opened CopyTheorems
  import opened CopyQuiet

  /** How far the conversation is from its end, not counting names still to be enumerated. */
  function PlaceWeight(at: At): nat {
    match at
    case AtSrc(Starting) => 48
    case Transit(BatonRequest) => 44
    case Reply(BatonResponse(_)) => 44
    case Transit(MasterList(uuids)) => 24 + 5 * |uuids|
    case AtDst(Answering(_, todo, uuids, nouuids)) => 24 + 5 * |todo| + 4 * (|uuids| + |nouuids|)
    case Reply(SlaveList(uuids, nouuids)) => 23 + 4 * (|uuids| + |nouuids|)
    case AtSrc(Locking(uuids, nouuids)) => 22 + 4 * (|uuids| + |nouuids|)
    case AtSrc(Comparing(_, _, todo)) => 21 + 4 * |todo|
    case AtSrc(BatchLocking(batch)) => 29 + 5 * |batch|
    case AtSrc(Sending(uuids)) => 28 + 5 * |uuids|
    case Transit(MasterListDone) => 21
    case Reply(SlaveListReady) => 21
    case Transit(SlaveListStart) => 17
    case Transit(MasterAck) => 17
    case AtDst(Walking) => 17
    case AtDst(Listing(todo, uuids)) => 24 + 5 * |todo| + 4 * |uuids|
    case Reply(SlaveListDone) => 16
    case _ => 0
  }

  /** What the enumerations still to come can cost. */
  function WalkWeight(s0: Store, d0: Store, at: At, srcWalk: Option<Walk>, dstWalk: Option<Walk>): nat {
    if at.Finished? then 0
    else
      (if at == AtSrc(Starting) || (at.Transit? && at.msg.BatonRequest?) || (at.Reply? && at.r.BatonResponse?)
       then 14 * |s0| else 0)
      + (if srcWalk.Some? then 20 + 14 * |srcWalk.value.must| else 0)
      + (if dstWalk.Some? then 13 * |dstWalk.value.must| else 13 * (|s0| + |d0|))
  }

  function Transport(k: State): nat {
    3 * |k.outq| + 2 * |k.wire| + |k.inbox|
  }

  /** Every step of a quiet copy makes this smaller. */
  function Remaining(s0: Store, d0: Store, k: State): nat {
    Transport(k) + PlaceWeight(Where(k)) + WalkWeight(s0, d0, Where(k), k.srcWalk, k.dstWalk)
  }

  lemma CardKeys(u: map<Name, Uuid>)
    ensures |u.Keys| == |u|
  {
  }

  lemma MovesDescend(s0: Store, d0: Store, k: State, a: Action)
    requires Inv(s0, d0, k) && Quiet(s0, d0, k)
    requires (a == Serialize && k.outq != []) || (a == Deliver && k.wire != [])
    ensures Remaining(s0, d0, if a == Serialize then ApplySerialize(k) else ApplyDeliver(k)) < Remaining(s0, d0, k)
  {
    hide OneToken, RightPhase, ReleaseInv, LockInv, NameInv, Where, Flushed, Lists, Fate, ToEnumerate, PlaceWeight, WalkWeight;
    if a == Serialize {
      FlushedSerialize(k);
    } else {
      FlushedDeliver(k);
      hide Put, ApplyDeliver;
      DeliverFields(k);
      if k.wire[0].WObj? {
        QuietObject(s0, d0, k);
      }
    }
  }

  lemma CardUnion<T>(a: set<T>, b: set<T>, c: set<T>)
    requires c <= a + b
    ensures |c| <= |a| + |b|
  {
    SubsetSize(c, a + b);
    assert a + b == a + (b - a);
    SubsetSize(b - a, b);
  }

  /** The destination starts enumerating no more than both sides ever had. */
  lemma DstIsSmall(s0: Store, d0: Store, k: State)
    requires Quiet(s0, d0, k) && k.dstWalk.None?
    ensures |k.dst.Keys| <= |s0| + |d0|
  {
    hide Lists, Flushed, Where, ToEnumerate, Flight, Differs, Pending;
    forall n | n in k.dst.Keys
      ensures n in s0.Keys + d0.Keys
    {
      assert Fate(s0, d0, k, n);
      if n !in k.sent {
        assert Look(k.dst, n) == Look(d0, n);
      }
    }
    CardUnion(s0.Keys, d0.Keys, k.dst.Keys);
  }

  lemma DstTakeWeights(cfg: Config, msg: ToDst)
    requires !msg.CopyComplete?
    ensures PlaceWeight(DstTakeAt(cfg, msg)) <= PlaceWeight(Transit(msg))
  {
    if msg.MasterList? {
      CardKeys(msg.uuids);
    }
  }

  lemma DstTakeFields(cfg: Config, k: State)
    requires k.inbox != []
    ensures var k2 := ApplyDstTake(cfg, k); k2.outq == k.outq && k2.wire == k.wire && k2.inbox == k.inbox[1..]
  {
  }

  lemma DstTakeTransport(cfg: Config, k: State)
    requires k.inbox != []
    ensures Transport(ApplyDstTake(cfg, k)) == Transport(k) - 1
  {
    DstTakeFields(cfg, k);
    hide ApplyDstTake;
  }

  lemma DstTakeSmaller(cfg: Config, s0: Store, d0: Store, k: State)
    requires k.inbox != [] && !k.inbox[0].CopyComplete?
    requires Where(k) == Transit(k.inbox[0]) && Where(ApplyDstTake(cfg, k)) == DstTakeAt(cfg, k.inbox[0])
    requires k.inbox[0].SlaveListStart? ==> k.dstWalk.None? && |k.dst.Keys| <= |s0| + |d0|
    ensures Remaining(s0, d0, ApplyDstTake(cfg, k)) < Remaining(s0, d0, k)
  {
    hide Where, OneToken, RightPhase, PlaceWeight;
    var k2 := ApplyDstTake(cfg, k);
    DstTakeWeights(cfg, k.inbox[0]);
    DstTakeWalks(cfg, k);
    DstTakeTransport(cfg, k);
    hide ApplyDstTake, Transport, DstTakeAt;
    assert WalkWeight(s0, d0, Where(k2), k2.srcWalk, k2.dstWalk) <= WalkWeight(s0, d0, Where(k), k.srcWalk, k.dstWalk);
  }

  lemma DstTakeDescends(cfg: Config, s0: Store, d0: Store, k: State)
    requires Inv(s0, d0, k) && Quiet(s0, d0, k) && k.inbox != []
    ensures Remaining(s0, d0, ApplyDstTake(cfg, k)) < Remaining(s0, d0, k)
  {
    hide ReleaseInv, LockInv, NameInv, Lists, Controls, ToEnumerate, Remaining, Fate;
    InboxToken(k);
    DstTakePlace(cfg, k);
    assert !k.inbox[0].CopyComplete?;
    assert k.inbox[0].SlaveListStart? ==> k.dstWalk.None?;
    assert k.outq == [] && k.wire == [];
    hide OneToken, RightPhase, Flushed, Where;
    if k.inbox[0].SlaveListStart? {
      DstIsSmall(s0, d0, k);
    }
    DstTakeSmaller(cfg, s0, d0, k);
  }

  lemma DstOneSmaller(cfg: Config, s0: Store, d0: Store, k: State, a: Action)
    requires (a.DstAnswer? || a.DstList?) && Enabled(cfg, k, a)
    requires Where(k) == AtDst(k.dstThread)
    requires var k2 := Apply(cfg, k, a); Where(k2) == AtDst(k2.dstThread)
    ensures Remaining(s0, d0, Apply(cfg, k, a)) < Remaining(s0, d0, k)
  {
    hide Where, WalkWeight, PlaceWeight, Look, AnswerOne, ListOne;
    var k2 := Apply(cfg, k, a);
    if a.DstAnswer? {
      AnswerLighter(k.dstThread, a.n, Look(k.dst, a.n));
    } else {
      ListLighter(k.dstThread, a.n, Look(k.dst, a.n));
    }
    assert k2 == k.(dstThread := k2.dstThread);
    WalkWeightAtDst(s0, d0, k.dstThread, k2.dstThread, k.srcWalk, k.dstWalk);
    hide Apply, Enabled;
  }

  lemma AnswerLighter(t: DstThread, n: Name, v: Option<Obj>)
    requires t.Answering? && n in t.todo && n in t.asked
    ensures PlaceWeight(AtDst(AnswerOne(t, n, v))) < PlaceWeight(AtDst(t))
  {
    SubsetSize({n}, t.todo);
  }

  lemma ListLighter(t: DstThread, n: Name, v: Option<Obj>)
    requires t.Listing? && n in t.todo
    ensures PlaceWeight(AtDst(ListOne(t, n, v))) < PlaceWeight(AtDst(t))
  {
    SubsetSize({n}, t.todo);
  }

  lemma WalkWeightAtDst(s0: Store, d0: Store, t: DstThread, t2: DstThread, srcWalk: Option<Walk>, dstWalk: Option<Walk>)
    ensures WalkWeight(s0, d0, AtDst(t), srcWalk, dstWalk) == WalkWeight(s0, d0, AtDst(t2), srcWalk, dstWalk)
  {
  }

  lemma DstReplySmaller(cfg: Config, s0: Store, d0: Store, k: State, a: Action)
    requires (a.DstAnswered? || a.DstListed?) && Enabled(cfg, k, a)
    requires Where(k) == AtDst(k.dstThread)
    requires Where(Apply(cfg, k, a)) ==
      Reply(SlaveList(k.dstThread.uuids, if a.DstListed? then {} else k.dstThread.nouuids))
    ensures Remaining(s0, d0, Apply(cfg, k, a)) < Remaining(s0, d0, k)
  {
    hide Where, OneToken, RightPhase;
    assert Transport(Apply(cfg, k, a)) == Transport(k);
    hide Transport;
  }

  lemma DstPlace(cfg: Config, k: State, a: Action)
    requires OneToken(k) && RightPhase(k) && ReleaseInv(k) && !Aborted(k)
    requires (a.DstAnswer? || a.DstAnswered? || a.DstList? || a.DstListed? || a.DstNext?) && Enabled(cfg, k, a)
    ensures var k2 := Apply(cfg, k, a);
      && Where(k) == AtDst(k.dstThread)
      && Where(k2) == if k2.dstThread.Idle? then Reply(k2.back[|k2.back| - 1]) else AtDst(k2.dstThread)
  {
    var k2 := Apply(cfg, k, a);
    DstToken(k);
    NotReleased(k);
    assert Controls(k2) == [];
  }

  lemma DstDescends(cfg: Config, s0: Store, d0: Store, k: State, a: Action)
    requires Inv(s0, d0, k) && Quiet(s0, d0, k)
    requires (a.DstAnswer? || a.DstAnswered? || a.DstList? || a.DstListed?) && Enabled(cfg, k, a)
    ensures Remaining(s0, d0, Apply(cfg, k, a)) < Remaining(s0, d0, k)
  {
    hide OneToken, RightPhase, ReleaseInv, LockInv, NameInv, Where, Flushed, Lists, Controls, ToEnumerate, Fate, Remaining;
    DstPlace(cfg, k, a);
    if a.DstAnswer? || a.DstList? {
      DstOneSmaller(cfg, s0, d0, k, a);
    } else {
      DstReplySmaller(cfg, s0, d0, k, a);
    }
  }

  lemma DstNextSmaller(cfg: Config, s0: Store, d0: Store, k: State, batch: set<Name>)
    requires Enabled(cfg, k, DstNext(batch)) && ExactWalk(k.dstWalk)
    requires Where(k) == AtDst(k.dstThread)
    requires Where(ApplyDstNext(k, batch)) == if batch == {} then Reply(SlaveListDone) else AtDst(Listing(batch, map[]))
    ensures Remaining(s0, d0, ApplyDstNext(k, batch)) < Remaining(s0, d0, k)
  {
    hide Where, OneToken, RightPhase;
    SubsetSize(batch, k.dstWalk.value.must);
  }

  lemma DstNextDescends(cfg: Config, s0: Store, d0: Store, k: State, batch: set<Name>)
    requires Inv(s0, d0, k) && Quiet(s0, d0, k) && Enabled(cfg, k, DstNext(batch))
    ensures Remaining(s0, d0, ApplyDstNext(k, batch)) < Remaining(s0, d0, k)
  {
    hide OneToken, RightPhase, ReleaseInv, LockInv, NameInv, Where, Flushed, Lists, Controls, ToEnumerate, Fate, Remaining;
    DstPlace(cfg, k, DstNext(batch));
    DstNextSmaller(cfg, s0, d0, k, batch);
  }

  lemma SrcTakeSmaller(s0: Store, d0: Store, k: State)
    requires k.back != [] && k.src == s0 && (!k.back[0].SlaveList? ==> k.srcWalk.None?)
    requires Where(k) == Reply(k.back[0]) && Where(ApplySrcTake(k)) == SrcTakeAt(k.back[0])
    ensures Remaining(s0, d0, ApplySrcTake(k)) < Remaining(s0, d0, k)
  {
    hide Where, OneToken, RightPhase;
    assert |s0.Keys| == |s0|;
  }

  lemma SrcTakeDescends(s0: Store, d0: Store, k: State)
    requires Inv(s0, d0, k) && Quiet(s0, d0, k) && k.back != []
    ensures Remaining(s0, d0, ApplySrcTake(k)) < Remaining(s0, d0, k)
  {
    hide ReleaseInv, LockInv, NameInv, Flushed, Lists, Controls, ToEnumerate, Fate, Remaining;
    BackToken(k);
    SrcTakePlace(k);
    assert !k.back[0].SlaveList? ==> k.srcWalk.None?;
    hide OneToken, RightPhase, Where;
    SrcTakeSmaller(s0, d0, k);
  }

  lemma LockLighter(uuids: map<Name, Uuid>, nouuids: set<Name>)
    ensures PlaceWeight(AtSrc(Comparing(uuids, nouuids, uuids.Keys + nouuids)))
          < PlaceWeight(AtSrc(Locking(uuids, nouuids)))
  {
    CardKeys(uuids);
    CardUnion(uuids.Keys, nouuids, uuids.Keys + nouuids);
  }

  lemma WalkWeightAtSrc(s0: Store, d0: Store, t: SrcThread, t2: SrcThread, srcWalk: Option<Walk>, dstWalk: Option<Walk>)
    requires !t.Starting? && !t2.Starting?
    ensures WalkWeight(s0, d0, AtSrc(t), srcWalk, dstWalk) == WalkWeight(s0, d0, AtSrc(t2), srcWalk, dstWalk)
  {
  }

  /** The source thread goes on to a lighter place, and nothing else moves. */
  lemma SrcThreadSmaller(s0: Store, d0: Store, k: State, t2: SrcThread)
    requires !k.srcThread.Starting? && !t2.Starting?
    requires Where(k) == AtSrc(k.srcThread) && Where(k.(srcThread := t2)) == AtSrc(t2)
    requires PlaceWeight(AtSrc(t2)) < PlaceWeight(AtSrc(k.srcThread))
    ensures Remaining(s0, d0, k.(srcThread := t2)) < Remaining(s0, d0, k)
  {
    hide Where, PlaceWeight, WalkWeight;
    WalkWeightAtSrc(s0, d0, k.srcThread, t2, k.srcWalk, k.dstWalk);
  }

  lemma LockSmaller(cfg: Config, s0: Store, d0: Store, k: State)
    requires Enabled(cfg, k, SrcLock)
    requires Where(k) == AtSrc(k.srcThread)
    requires Where(Apply(cfg, k, SrcLock)) == AtSrc(Apply(cfg, k, SrcLock).srcThread)
    ensures Remaining(s0, d0, Apply(cfg, k, SrcLock)) < Remaining(s0, d0, k)
  {
    hide Where, Held, PlaceWeight, Remaining;
    var t := k.srcThread;
    LockLighter(t.uuids, t.nouuids);
    SrcThreadSmaller(s0, d0, k, Comparing(t.uuids, t.nouuids, t.uuids.Keys + t.nouuids));
  }

  /** What queueing one message costs. */
  lemma TellTransport(k: State, k2: State, msg: ToDst)
    requires k2.outq == Tell(k.outq, msg) && k2.wire == k.wire && k2.inbox == k.inbox
    ensures Transport(k2) == Transport(k) + 3
  {
  }

  lemma StartDescends(s0: Store, d0: Store, k: State)
    requires Inv(s0, d0, k) && Quiet(s0, d0, k) && k.srcThread.Starting?
    ensures Remaining(s0, d0, ApplySrcStart(k)) < Remaining(s0, d0, k)
  {
    StartPlace(k);
    TellTransport(k, ApplySrcStart(k), BatonRequest);
    hide OneToken, RightPhase, ReleaseInv, LockInv, NameInv, Where, Flushed, Lists, Controls, ToEnumerate, Fate, Transport;
  }

  lemma ReadLighter(s: Store, batch: set<Name>)
    ensures PlaceWeight(AtSrc(Sending(UuidsOf(s, batch)))) < PlaceWeight(AtSrc(BatchLocking(batch)))
  {
    var u := UuidsOf(s, batch);
    CardKeys(u);
    SubsetSize(u.Keys, batch);
  }

  lemma ReadSmaller(s0: Store, d0: Store, k: State)
    requires k.srcThread.BatchLocking?
    requires Where(k) == AtSrc(k.srcThread) && Where(ApplySrcRead(k)) == AtSrc(ApplySrcRead(k).srcThread)
    ensures Remaining(s0, d0, ApplySrcRead(k)) < Remaining(s0, d0, k)
  {
    hide Where, PlaceWeight, Remaining, UuidsOf;
    ReadLighter(k.src, k.srcThread.batch);
    SrcThreadSmaller(s0, d0, k, Sending(UuidsOf(k.src, k.srcThread.batch)));
  }

  lemma SendSmaller(s0: Store, d0: Store, k: State)
    requires k.srcThread.Sending?
    requires Where(k) == AtSrc(k.srcThread) && Where(ApplySrcSend(k)) == Transit(MasterList(k.srcThread.uuids))
    ensures Remaining(s0, d0, ApplySrcSend(k)) < Remaining(s0, d0, k)
  {
    hide Where, OneToken, RightPhase, Held, Transport;
    TellTransport(k, ApplySrcSend(k), MasterList(k.srcThread.uuids));
  }

  lemma SrcPlace(cfg: Config, k: State, a: Action)
    requires OneToken(k) && RightPhase(k) && ReleaseInv(k) && !Aborted(k)
    requires (a.SrcLock? || a.SrcRead?) && Enabled(cfg, k, a)
    ensures Where(k) == AtSrc(k.srcThread) && Where(Apply(cfg, k, a)) == AtSrc(Apply(cfg, k, a).srcThread)
  {
    SrcToken(k);
    NotReleased(k);
    assert Controls(Apply(cfg, k, a)) == [];
  }

  lemma SrcDescends(cfg: Config, s0: Store, d0: Store, k: State, a: Action)
    requires Inv(s0, d0, k) && Quiet(s0, d0, k)
    requires (a.SrcLock? || a.SrcRead?) && Enabled(cfg, k, a)
    ensures Remaining(s0, d0, Apply(cfg, k, a)) < Remaining(s0, d0, k)
  {
    hide OneToken, RightPhase, ReleaseInv, LockInv, NameInv, Where, Flushed, Lists, Controls, ToEnumerate, Fate, Remaining;
    SrcPlace(cfg, k, a);
    if a.SrcLock? {
      LockSmaller(cfg, s0, d0, k);
    } else {
      ReadSmaller(s0, d0, k);
    }
  }

  lemma SendDescends(s0: Store, d0: Store, k: State)
    requires Inv(s0, d0, k) && Quiet(s0, d0, k) && k.srcThread.Sending?
    ensures Remaining(s0, d0, ApplySrcSend(k)) < Remaining(s0, d0, k)
  {
    hide OneToken, RightPhase, ReleaseInv, LockInv, NameInv, Where, Flushed, Lists, Controls, ToEnumerate, Fate, Remaining;
    SendPlace(k);
    SendSmaller(s0, d0, k);
  }

  lemma CompareSmaller(s0: Store, d0: Store, k: State, n: Name)
    requires k.srcThread.Comparing? && n in k.srcThread.todo && Where(k) == AtSrc(k.srcThread)
    requires var k2 := ApplySrcCompare(k, n); Where(k2) == AtSrc(k2.srcThread)
    ensures Remaining(s0, d0, ApplySrcCompare(k, n)) < Remaining(s0, d0, k)
  {
    hide Where, OneToken, RightPhase, Mismatch;
    var k2 := ApplySrcCompare(k, n);
    var t := k.srcThread;
    SrcCompareWalks(k, n);
    assert Transport(k2) <= Transport(k) + 3 && k2.srcThread == Comparing(t.uuids, t.nouuids, t.todo - {n});
    hide ApplySrcCompare, Transport;
    SubsetSize({n}, t.todo);
  }

  lemma CompareDescends(s0: Store, d0: Store, k: State, n: Name)
    requires Inv(s0, d0, k) && Quiet(s0, d0, k) && k.srcThread.Comparing? && n in k.srcThread.todo
    ensures Remaining(s0, d0, ApplySrcCompare(k, n)) < Remaining(s0, d0, k)
  {
    hide OneToken, RightPhase, ReleaseInv, LockInv, NameInv, Where, Flushed, Lists, Controls, ToEnumerate, Fate, Remaining;
    CompareControl(k, n);
    CompareSmaller(s0, d0, k, n);
  }

  lemma SrcNextSmaller(chunk: nat, s0: Store, d0: Store, k: State, batch: set<Name>)
    requires k.srcThread.Comparing? && ExactWalk(k.srcWalk)
    requires k.srcWalk.Some? ==> MayYield(k.srcWalk.value, batch, chunk)
    requires Where(k) == AtSrc(k.srcThread) && Where(ApplySrcNext(k, batch)) == SrcNextAt(k, batch)
    ensures Remaining(s0, d0, ApplySrcNext(k, batch)) < Remaining(s0, d0, k)
  {
    hide Where;
    SrcNextTransport(k, batch);
    SrcNextFields(k, batch);
    if k.srcWalk.Some? {
      SubsetSize(batch, k.srcWalk.value.must);
    }
    hide ApplySrcNext, Transport, MayYield;
  }

  lemma SrcNextTransport(k: State, batch: set<Name>)
    ensures Transport(ApplySrcNext(k, batch))
         == Transport(k) + if k.srcWalk.None? || batch == {} then 3 else 0
  {
    if k.srcWalk.None? {
      TellTransport(k, ApplySrcNext(k, batch), MasterAck);
    } else if batch == {} {
      TellTransport(k, ApplySrcNext(k, batch), MasterListDone);
    }
  }

  lemma SrcNextDescends(cfg: Config, s0: Store, d0: Store, k: State, batch: set<Name>)
    requires Inv(s0, d0, k) && Quiet(s0, d0, k) && Enabled(cfg, k, SrcNext(batch))
    ensures Remaining(s0, d0, ApplySrcNext(k, batch)) < Remaining(s0, d0, k)
  {
    hide OneToken, RightPhase, ReleaseInv, LockInv, NameInv, Where, Flushed, Lists, Controls, ToEnumerate, Fate, Remaining;
    CompareControl(k, "");
    SrcNextControl(k, batch);
    SrcNextSmaller(cfg.chunk, s0, d0, k, batch);
  }

  lemma StepDescends(cfg: Config, s0: Store, d0: Store, k: State, a: Action)
    requires Inv(s0, d0, k) && Quiet(s0, d0, k) && OwnStep(a) && Enabled(cfg, k, a)
    ensures Remaining(s0, d0, Apply(cfg, k, a)) < Remaining(s0, d0, k)
  {
    hide Inv, Quiet, Remaining;
    match a
    case Serialize => MovesDescend(s0, d0, k, a);
    case Deliver => MovesDescend(s0, d0, k, a);
    case DstTake => DstTakeDescends(cfg, s0, d0, k);
    case DstNext(batch) => DstNextDescends(cfg, s0, d0, k, batch);
    case SrcStart => StartDescends(s0, d0, k);
    case SrcTake => SrcTakeDescends(s0, d0, k);
    case SrcCompare(n) => CompareDescends(s0, d0, k, n);
    case SrcNext(batch) => SrcNextDescends(cfg, s0, d0, k, batch);
    case SrcLock => SrcDescends(cfg, s0, d0, k, a);
    case SrcRead => SrcDescends(cfg, s0, d0, k, a);
    case SrcSend => SendDescends(s0, d0, k);
    case _ => DstDescends(cfg, s0, d0, k, a);
  }

  /** A quiet run is no longer than the measure it starts with. */
  lemma {:induction false} RunIsBounded(cfg: Config, s0: Store, d0: Store, k: State, acts: seq<Action>, k2: State)
    requires Start(cfg, s0, d0) && cfg.chunk >= 1 && OwnRun(acts)
    requires CopyInv(cfg, s0, d0, k) && Quiet(s0, d0, k) && Runs(cfg, k, acts, k2)
    ensures |acts| + Remaining(s0, d0, k2) <= Remaining(s0, d0, k)
    decreases |acts|
  {
    if acts != [] {
      var k1 := Apply(cfg, k, acts[0]);
      assert OwnStep(acts[0]) && !Aborted(k);
      QuietStep(cfg, s0, d0, k, acts[0]);
      StepKeeps(cfg, s0, d0, k, acts[0]);
      StepDescends(cfg, s0, d0, k, acts[0]);
      assert forall i :: 0 <= i < |acts[1..]| ==> acts[1..][i] == acts[i + 1];
      hide Quiet, CopyInv, Start, Remaining;
      RunIsBounded(cfg, s0, d0, k1, acts[1..], k2);
    }
  }

  /** Some next names a walk may yield. */
  lemma {:induction false} SomeBatch(must: set<Name>, chunk: nat) returns (batch: set<Name>)
    ensures batch <= must && |batch| <= chunk && (|batch| < chunk ==> batch == must)
    decreases chunk
  {
    if chunk == 0 || must == {} {
      batch := {};
    } else {
      var n :| n in must;
      var rest := SomeBatch(must - {n}, chunk - 1);
      batch := rest + {n};
    }
  }

  predicate Ended(k: State) {
    k.success && k.outq == [] && k.wire == []
  }

  lemma DstCanGoOn(cfg: Config, k: State) returns (a: Action)
    requires !k.dstThread.Idle? && ExactWalk(k.dstWalk)
    requires k.dstThread.Answering? ==> k.dstThread.todo <= k.dstThread.asked.Keys
    requires k.dstThread.Walking? ==> k.dstWalk.Some?
    ensures OwnStep(a) && Enabled(cfg, k, a)
  {
    match k.dstThread
    case Answering(_, todo, _, _) =>
      if n :| n in todo {
        a := DstAnswer(n);
      } else {
        a := DstAnswered;
      }
    case Walking =>
      var batch := SomeBatch(k.dstWalk.value.must, cfg.chunk);
      a := DstNext(batch);
    case Listing(todo, _) =>
      if n :| n in todo {
        a := DstList(n);
      } else {
        a := DstListed;
      }
  }

  lemma SrcCanGoOn(cfg: Config, k: State) returns (a: Action)
    requires !k.srcThread.Waiting? && !k.srcThread.Stopped? && k.committing == {} && k.outq == [] && ExactWalk(k.srcWalk)
    ensures OwnStep(a) && Enabled(cfg, k, a)
  {
    match k.srcThread
    case Starting => a := SrcStart;
    case Locking(_, _) => a := SrcLock;
    case Comparing(_, _, todo) =>
      if n :| n in todo {
        a := SrcCompare(n);
      } else if k.srcWalk.Some? {
        var batch := SomeBatch(k.srcWalk.value.must, cfg.chunk);
        a := SrcNext(batch);
      } else {
        a := SrcNext({});
      }
    case BatchLocking(_) => a := SrcRead;
    case Sending(_) => a := SrcSend;
  }

  /** A copy that has not ended can always go on. */
  lemma CanGoOn(cfg: Config, s0: Store, d0: Store, k: State) returns (a: Action)
    requires Inv(s0, d0, k) && Quiet(s0, d0, k) && !Ended(k)
    ensures OwnStep(a) && Enabled(cfg, k, a)
  {
    hide LockInv, NameInv, ReleaseInv, Lists, Fate, ToEnumerate, Flushed, Flight, ExactWalk;
    if k.outq != [] {
      return Serialize;
    }
    if k.wire != [] {
      return Deliver;
    }
    if !k.dstThread.Idle? {
      DstToken(k);
      a := DstCanGoOn(cfg, k);
    } else if k.inbox != [] {
      a := DstTake;
    } else if k.back != [] {
      BackToken(k);
      a := SrcTake;
    } else {
      a := SrcCanGoOn(cfg, k);
    }
  }

  lemma {:induction false} GoesOnToTheEnd(cfg: Config, s0: Store, d0: Store, k: State) returns (acts: seq<Action>, k2: State)
    requires Start(cfg, s0, d0) && cfg.chunk >= 1
    requires CopyInv(cfg, s0, d0, k) && Quiet(s0, d0, k)
    ensures OwnRun(acts) && Runs(cfg, k, acts, k2) && Ended(k2)
    decreases Remaining(s0, d0, k)
  {
    if Ended(k) {
      acts, k2 := [], k;
    } else {
      assert !Aborted(k);
      var a := CanGoOn(cfg, s0, d0, k);
      QuietStep(cfg, s0, d0, k, a);
      StepKeeps(cfg, s0, d0, k, a);
      StepDescends(cfg, s0, d0, k, a);
      hide Quiet, CopyInv, Start, Remaining, Ended;
      var more, last := GoesOnToTheEnd(cfg, s0, d0, Apply(cfg, k, a));
      Prepend(cfg, k, a, more, last);
      acts, k2 := [a] + more, last;
    }
  }

  /**
   With no concurrent commits the copy completes: no run is longer than a bound
   fixed by the two repositories, every run can be continued to the end, and
   the end is a success that left the destination equal to the source.
   */
  lemma QuietCopyCompletes(cfg: Config, s0: Store, d0: Store, acts: seq<Action>, k: State)
    returns (more: seq<Action>, last: State)
    requires cfg.chunk >= 1 && QuietlyReaches(cfg, s0, d0, acts, k)
    ensures |acts| <= Remaining(s0, d0, Init(s0, d0))
    ensures OwnRun(more) && Runs(cfg, k, more, last)
    ensures last.success && last.outq == [] && last.wire == [] && last.src == s0 && last.dst == s0
    ensures |acts| + |more| <= Remaining(s0, d0, Init(s0, d0))
    ensures (forall a :: OwnStep(a) ==> !Enabled(cfg, k, a)) ==> Ended(k)
  {
    InitHolds(cfg, s0, d0);
    QuietInit(cfg, s0, d0);
    RunIsBounded(cfg, s0, d0, Init(s0, d0), acts, k);
    QuietReachesInv(cfg, s0, d0, acts, k);
    more, last := GoesOnToTheEnd(cfg, s0, d0, k);
    RunIsBounded(cfg, s0, d0, k, more, last);
    QuietRun(cfg, s0, d0, k, more, last);
    RunsCompose(cfg, Init(s0, d0), acts, k, more, last);
    DrainedCopyIsEqual(cfg, s0, d0, acts + more, last);
    if !Ended(k) {
      var a := CanGoOn(cfg, s0, d0, k);
    }
  }
}
