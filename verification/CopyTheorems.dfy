/** What a run of the copy protocol guarantees, and what it does not. */
module CopyTheorems {
  import opened Stores
  import opened CopyProtocol
  import opened CopySync

  ghost predicate CopyInv(cfg: Config, s0: Store, d0: Store, k: State) {
    Inv(s0, d0, k) && (cfg.batonMatches && !Aborted(k) ==> forall n :: InSync(k, n))
  }

  lemma InitHolds(cfg: Config, s0: Store, d0: Store)
    requires Start(cfg, s0, d0)
    ensures CopyInv(cfg, s0, d0, Init(s0, d0))
  {
    var k := Init(s0, d0);
    assert Controls(k) == [] && Where(k) == AtSrc(Starting);
    if cfg.batonMatches {
      forall n
        ensures InSync(k, n)
      {
        assert Coherent(Look(s0, n), Look(d0, n)) && UuidOf(Look(s0, n)) == UuidOf(Look(d0, n));
      }
    }
  }

  /** An aborted source never comes back. */
  lemma AbortedStays(cfg: Config, k: State, a: Action)
    requires CommitInv(k) && Aborted(k) && Enabled(cfg, k, a)
    ensures Aborted(Apply(cfg, k, a)) && CommitInv(Apply(cfg, k, a))
  {
    hide Look, Put, Held, MayYield;
  }

  lemma AbortAborts(cfg: Config, s0: Store, d0: Store, k: State)
    requires Inv(s0, d0, k) && Enabled(cfg, k, SrcAbort)
    ensures Aborted(Apply(cfg, k, SrcAbort)) && CommitInv(Apply(cfg, k, SrcAbort))
  {
  }

  lemma AbortKeeps(cfg: Config, s0: Store, d0: Store, k: State, a: Action)
    requires CopyInv(cfg, s0, d0, k) && (Aborted(k) || a == SrcAbort) && Enabled(cfg, k, a)
    ensures CopyInv(cfg, s0, d0, Apply(cfg, k, a)) && Aborted(Apply(cfg, k, a))
  {
    if a == SrcAbort {
      AbortAborts(cfg, s0, d0, k);
    } else {
      AbortedStays(cfg, k, a);
    }
    hide Apply, Enabled, Aborted;
  }

  lemma StepKeeps(cfg: Config, s0: Store, d0: Store, k: State, a: Action)
    requires Start(cfg, s0, d0) && cfg.chunk >= 1
    requires CopyInv(cfg, s0, d0, k) && !Aborted(k) && Enabled(cfg, k, a) && a != SrcAbort
    ensures CopyInv(cfg, s0, d0, Apply(cfg, k, a))
    ensures forall n :: InSync(k, n) ==> InSync(Apply(cfg, k, a), n)
  {
    hide OneToken, RightPhase, ReleaseInv, NameInv, LockInv, InSync;
    match a
    case Commit(n, v) => CommitKeeps(s0, d0, k, n, v);
    case Forward(n) => ForwardKeeps(s0, d0, k, n);
    case Serialize => SerializeKeeps(s0, d0, k);
    case Deliver => DeliverKeeps(s0, d0, k);
    case DstTake => DstTakeKeeps(cfg, s0, d0, k);
    case DstAnswer(_) => DstAnswerKeeps(cfg, s0, d0, k, a);
    case DstAnswered => DstAnswerKeeps(cfg, s0, d0, k, a);
    case DstNext(_) => DstNextKeeps(cfg, s0, d0, k, a);
    case DstList(_) => DstListKeeps(cfg, s0, d0, k, a);
    case DstListed => DstListKeeps(cfg, s0, d0, k, a);
    case SrcStart => SrcStartKeeps(s0, d0, k);
    case SrcTake => SrcTakeKeeps(s0, d0, k);
    case SrcLock => SrcLockKeeps(cfg, s0, d0, k);
    case SrcCompare(n) => SrcCompareKeeps(s0, d0, k, n);
    case SrcNext(batch) => SrcNextKeeps(cfg, s0, d0, k, batch);
    case SrcRead => SrcReadKeeps(cfg, s0, d0, k);
    case SrcSend => SrcSendKeeps(s0, d0, k);
    case LockCommits => LockKeeps(s0, d0, k, true);
    case UnlockCommits => LockKeeps(s0, d0, k, false);
    case Release => ReleaseKeeps(s0, d0, k);
  }

  lemma LockKeeps(s0: Store, d0: Store, k: State, b: bool)
    requires Inv(s0, d0, k) && (b ==> k.committing == {})
    ensures Inv(s0, d0, k.(commitsLocked := b))
    ensures forall n :: InSync(k, n) ==> InSync(k.(commitsLocked := b), n)
  {
    var k2 := k.(commitsLocked := b);
    assert Controls(k2) == Controls(k);
    forall n
      ensures NameInv(s0, d0, k, n) ==> NameInv(s0, d0, k2, n)
      ensures InSync(k, n) ==> InSync(k2, n)
    {
    }
  }

  /** The invariant holds along every run, and a name once in sync stays in sync. */
  lemma {:induction false} RunKeeps(cfg: Config, s0: Store, d0: Store, k: State, acts: seq<Action>, k2: State)
    requires Start(cfg, s0, d0) && cfg.chunk >= 1
    requires CopyInv(cfg, s0, d0, k) && Runs(cfg, k, acts, k2)
    ensures CopyInv(cfg, s0, d0, k2)
    ensures !Aborted(k2) ==> !Aborted(k) && forall n :: InSync(k, n) ==> InSync(k2, n)
    decreases |acts|
  {
    hide CopyInv, InSync, Start, Aborted, Apply, Enabled;
    if acts != [] {
      var k1 := Apply(cfg, k, acts[0]);
      if Aborted(k) || acts[0] == SrcAbort {
        AbortKeeps(cfg, s0, d0, k, acts[0]);
      } else {
        StepKeeps(cfg, s0, d0, k, acts[0]);
      }
      RunKeeps(cfg, s0, d0, k1, acts[1..], k2);
    }
  }

  ghost predicate Reaches(cfg: Config, s0: Store, d0: Store, acts: seq<Action>, k: State) {
    Start(cfg, s0, d0) && Runs(cfg, Init(s0, d0), acts, k)
  }

  lemma ReachesInv(cfg: Config, s0: Store, d0: Store, acts: seq<Action>, k: State)
    requires cfg.chunk >= 1 && Reaches(cfg, s0, d0, acts, k)
    ensures CopyInv(cfg, s0, d0, k)
  {
    InitHolds(cfg, s0, d0);
    RunKeeps(cfg, s0, d0, Init(s0, d0), acts, k);
  }

  /**
   At any moment of any copy that was not aborted, every name is either in sync
   up to what is already queued, or untouched since the start and still to be
   enumerated or acted on.
   */
  lemma EveryNameAccountedFor(cfg: Config, s0: Store, d0: Store, acts: seq<Action>, k: State, n: Name)
    requires cfg.chunk >= 1 && Reaches(cfg, s0, d0, acts, k) && !Aborted(k)
    ensures InSync(k, n) || (Untouched(s0, d0, k, n) && Owed(k, Where(k), n))
  {
    ReachesInv(cfg, s0, d0, acts, k);
    assert NameInv(s0, d0, k, n);
  }

  /** Until the copy finishes exactly one control message is in flight or being handled. */
  lemma OneControlMessage(cfg: Config, s0: Store, d0: Store, acts: seq<Action>, k: State)
    requires cfg.chunk >= 1 && Reaches(cfg, s0, d0, acts, k) && !k.srcThread.Stopped?
    ensures |Controls(k)| + |k.back| + (if k.dstThread.Idle? then 0 else 1) + (if k.srcThread.Waiting? then 0 else 1) == 1
  {
    ReachesInv(cfg, s0, d0, acts, k);
    hide RightPhase;
  }

  /**
   Every slavelist is answered in its phase: by masterlist or masterlistdone
   while the source enumerates and the destination has not started to, by
   masterack only after slaveliststart.
   */
  lemma AnswersInPhase(cfg: Config, s0: Store, d0: Store, acts: seq<Action>, k: State, a: Action)
    requires cfg.chunk >= 1 && Reaches(cfg, s0, d0, acts, k) && !Aborted(k) && Enabled(cfg, k, a)
    requires a.SrcNext? || a.SrcSend?
    ensures k.srcWalk.Some? <==> k.dstWalk.None?
    ensures var k2 := Apply(cfg, k, a);
      if k.dstWalk.Some? then k2.outq == k.outq + [QCtl(MasterAck)]
      else k2.srcThread.BatchLocking? || (|k2.outq| == |k.outq| + 1 && k2.outq[|k.outq|].QCtl?
            && (k2.outq[|k.outq|].msg.MasterList? || k2.outq[|k.outq|].msg.MasterListDone?))
  {
    ReachesInv(cfg, s0, d0, acts, k);
    SrcToken(k);
  }

  /** A successful copy whose connection has drained leaves equal repositories. */
  lemma DrainedCopyIsEqual(cfg: Config, s0: Store, d0: Store, acts: seq<Action>, k: State)
    requires cfg.chunk >= 1 && Reaches(cfg, s0, d0, acts, k)
    requires k.success && k.released.None? && k.committing == {} && k.outq == [] && k.wire == []
    ensures k.dst == k.src
  {
    ReachesInv(cfg, s0, d0, acts, k);
    forall n
      ensures Look(k.dst, n) == Look(k.src, n)
    {
      assert NameInv(s0, d0, k, n);
      FinishedInSync(s0, d0, k, n);
    }
    StoresEqual(k.dst, k.src);
  }

  /**
   When the final message of a successful copy arrives, the destination holds
   exactly what the source held at the release, whatever was committed to the
   source since.
   */
  lemma CompletedCopyIsIdentical(cfg: Config, s0: Store, d0: Store, acts: seq<Action>, k: State)
    requires cfg.chunk >= 1 && Reaches(cfg, s0, d0, acts, k)
    requires k.success && k.done
    ensures k.released.Some? && k.dst == k.released.value
  {
    ReachesInv(cfg, s0, d0, acts, k);
    assert k.released.Some? && k.outq == [] && k.wire == [];
    forall n
      ensures Look(k.dst, n) == Look(k.released.value, n)
    {
      assert NameInv(s0, d0, k, n);
      FinishedInSync(s0, d0, k, n);
    }
    StoresEqual(k.dst, k.released.value);
  }

  /** While commits are locked nothing is committed; once they are unlocked every name can be whose lock is free. */
  lemma CommitsGoOn(cfg: Config, k: State, n: Name, v: Option<Obj>)
    requires k.commitsLocked
    ensures !Enabled(cfg, k, Commit(n, v))
    ensures Enabled(cfg, k, UnlockCommits)
    ensures Enabled(cfg, Apply(cfg, k, UnlockCommits), Commit(n, v)) <==> !Held(k, n)
    ensures !Held(k, n) ==> Look(Apply(cfg, Apply(cfg, k, UnlockCommits), Commit(n, v)).src, n) == v
  {
  }

  // ------------------------------------------------------------ where the guarantee stops

  /** One more action in front of a run. */
  lemma Prepend(cfg: Config, k: State, a: Action, acts: seq<Action>, k2: State)
    requires Enabled(cfg, k, a) && Runs(cfg, Apply(cfg, k, a), acts, k2)
    ensures Runs(cfg, k, [a] + acts, k2)
  {
    assert ([a] + acts)[1..] == acts;
  }

  /** The start, but with another message queued. */
  function OnlyQueued(s0: Store, d0: Store, msg: ToDst): State {
    Init(s0, d0).(outq := [QCtl(msg)], srcThread := Waiting)
  }

  /** The start, but with the baton refused. */
  function Refused(s0: Store, d0: Store): State {
    Init(s0, d0).(back := [BatonResponse(false)], srcThread := Waiting)
  }

  lemma BatonRefused(cfg: Config, s0: Store, d0: Store) returns (acts: seq<Action>)
    requires !cfg.batonMatches
    ensures Runs(cfg, Init(s0, d0), acts, Refused(s0, d0))
  {
    var k0 := OnlyQueued(s0, d0, BatonRequest);
    assert Apply(cfg, Init(s0, d0), SrcStart) == k0;
    var a1, k1 := MessageArrives(cfg, k0, BatonRequest);
    var k2 := Apply(cfg, k1, DstTake);
    assert k2 == Refused(s0, d0);
    Prepend(cfg, k1, DstTake, [], k2);
    RunsCompose(cfg, k0, a1, k1, [DstTake] + [], k2);
    Prepend(cfg, Init(s0, d0), SrcStart, a1 + ([DstTake] + []), k2);
    acts := [SrcStart] + (a1 + ([DstTake] + []));
  }

  lemma ChunkZeroSkipsMaster(cfg: Config, s0: Store, d0: Store) returns (acts: seq<Action>)
    requires cfg.chunk == 0
    ensures Runs(cfg, Refused(s0, d0), acts, OnlyQueued(s0, d0, MasterListDone))
  {
    var k2 := Refused(s0, d0);
    var k3 := Apply(cfg, k2, SrcTake);
    var k4 := Apply(cfg, k3, SrcLock);
    assert k4.srcThread.todo == {};
    var k5 := Apply(cfg, k4, SrcNext({}));
    assert k5 == OnlyQueued(s0, d0, MasterListDone);
    Prepend(cfg, k4, SrcNext({}), [], k5);
    Prepend(cfg, k3, SrcLock, [SrcNext({})] + [], k5);
    acts := [SrcLock] + ([SrcNext({})] + []);
    Prepend(cfg, k2, SrcTake, acts, k5);
    acts := [SrcTake] + acts;
  }

  lemma ChunkZeroTurnsRound(cfg: Config, s0: Store, d0: Store) returns (acts: seq<Action>)
    ensures Runs(cfg, OnlyQueued(s0, d0, MasterListDone), acts, OnlyQueued(s0, d0, SlaveListStart))
  {
    var a1, k1 := MessageArrives(cfg, OnlyQueued(s0, d0, MasterListDone), MasterListDone);
    var k2 := Apply(cfg, k1, DstTake);
    var k3 := Apply(cfg, k2, SrcTake);
    assert k3 == OnlyQueued(s0, d0, SlaveListStart);
    Prepend(cfg, k2, SrcTake, [], k3);
    Prepend(cfg, k1, DstTake, [SrcTake] + [], k3);
    RunsCompose(cfg, OnlyQueued(s0, d0, MasterListDone), a1, k1, [DstTake] + ([SrcTake] + []), k3);
    acts := a1 + ([DstTake] + ([SrcTake] + []));
  }

  lemma ChunkZeroSkipsSlave(cfg: Config, s0: Store, d0: Store) returns (acts: seq<Action>, k: State)
    requires cfg.chunk == 0
    ensures Runs(cfg, OnlyQueued(s0, d0, SlaveListStart), acts, k)
    ensures k.success && k.released.None? && k.committing == {} && k.outq == [] && k.wire == []
    ensures k.src == s0 && k.dst == d0
  {
    var a3, k3 := MessageArrives(cfg, OnlyQueued(s0, d0, SlaveListStart), SlaveListStart);
    var k4 := Apply(cfg, k3, DstTake);
    var k5 := Apply(cfg, k4, DstNext({}));
    k := Apply(cfg, k5, SrcTake);
    Prepend(cfg, k5, SrcTake, [], k);
    Prepend(cfg, k4, DstNext({}), [SrcTake] + [], k);
    acts := [DstNext({})] + ([SrcTake] + []);
    Prepend(cfg, k3, DstTake, acts, k);
    RunsCompose(cfg, OnlyQueued(s0, d0, SlaveListStart), a3, k3, [DstTake] + acts, k);
    acts := a3 + ([DstTake] + acts);
  }

  /** With a chunk size of zero both enumerations end at once and the copy succeeds without copying. */
  lemma ChunkZeroCopiesNothing(cfg: Config, s0: Store, d0: Store) returns (acts: seq<Action>, k: State)
    requires cfg.chunk == 0 && !cfg.batonMatches
    ensures Runs(cfg, Init(s0, d0), acts, k)
    ensures k.success && k.released.None? && k.committing == {} && k.outq == [] && k.wire == []
    ensures k.src == s0 && k.dst == d0
  {
    hide Refused, OnlyQueued, Apply, Enabled;
    var a1 := BatonRefused(cfg, s0, d0);
    var a2 := ChunkZeroSkipsMaster(cfg, s0, d0);
    RunsCompose(cfg, Init(s0, d0), a1, Refused(s0, d0), a2, OnlyQueued(s0, d0, MasterListDone));
    var a3 := ChunkZeroTurnsRound(cfg, s0, d0);
    RunsCompose(cfg, Init(s0, d0), a1 + a2, OnlyQueued(s0, d0, MasterListDone), a3, OnlyQueued(s0, d0, SlaveListStart));
    acts, k := ChunkZeroSkipsSlave(cfg, s0, d0);
    RunsCompose(cfg, Init(s0, d0), a1 + a2 + a3, OnlyQueued(s0, d0, SlaveListStart), acts, k);
    acts := a1 + a2 + a3 + acts;
  }

  /** A lone queued message reaches the destination's inbox. */
  lemma MessageArrives(cfg: Config, k: State, msg: ToDst) returns (acts: seq<Action>, k2: State)
    requires k.outq == [QCtl(msg)] && k.wire == [] && k.inbox == [] && !msg.CopyComplete?
    ensures Runs(cfg, k, acts, k2) && k2 == k.(outq := [], inbox := [msg])
  {
    var k1 := Apply(cfg, k, Serialize);
    k2 := Apply(cfg, k1, Deliver);
    assert k1.wire == [WCtl(msg)];
    Prepend(cfg, k1, Deliver, [], k2);
    Prepend(cfg, k, Serialize, [Deliver] + [], k2);
    acts := [Serialize] + ([Deliver] + []);
  }

  /** Every successful drained copy is exact precisely when the chunk size is not zero. */
  lemma CopyExactIffChunkPositive(cfg: Config)
    requires !cfg.batonMatches
    ensures cfg.chunk >= 1 <==>
      (forall s0, d0, acts, k {:trigger Reaches(cfg, s0, d0, acts, k)} ::
        Reaches(cfg, s0, d0, acts, k) && k.success && k.released.None? && k.committing == {} && k.outq == [] && k.wire == []
        ==> k.dst == k.src)
  {
    if cfg.chunk >= 1 {
      forall s0, d0, acts, k {:trigger Reaches(cfg, s0, d0, acts, k)}
        | Reaches(cfg, s0, d0, acts, k) && k.success && k.released.None? && k.committing == {} && k.outq == [] && k.wire == []
        ensures k.dst == k.src
      {
        DrainedCopyIsEqual(cfg, s0, d0, acts, k);
      }
    } else {
      var s0, d0: Store := map["a" := Obj(0, "")], map[];
      var acts, k := ChunkZeroCopiesNothing(cfg, s0, d0);
      assert Reaches(cfg, s0, d0, acts, k);
      assert "a" in k.src && "a" !in k.dst;
    }
  }
}
