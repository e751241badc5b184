/**
 What a release promises when nobody asks whether the copy succeeded: the
 source may have aborted at any moment, while commits go on being forwarded.
 */
module CopyReleases {
  import opened Stores
  import opened CopyProtocol
  import opened CopySync
  import opened CopyTheorems

  // ------------------------------------------------------------ the final message

  predicate NoneFinal(outq: seq<Queued>, wire: seq<Wired>) {
    && (forall i :: 0 <= i < |outq| ==> outq[i] != QCtl(CopyComplete))
    && (forall i :: 0 <= i < |wire| ==> wire[i] != WCtl(CopyComplete))
  }

  /** The final message comes behind everything else, and once. */
  predicate FinalLast(outq: seq<Queued>, wire: seq<Wired>) {
    if outq != [] then
      outq[|outq| - 1] == QCtl(CopyComplete) && NoneFinal(outq[..|outq| - 1], wire)
    else
      wire != [] && wire[|wire| - 1] == WCtl(CopyComplete) && NoneFinal([], wire[..|wire| - 1])
  }

  /** What holds of the release in every run, aborted or not. */
  ghost predicate Tail(k: State) {
    && CommitInv(k) && LockInv(k)
    && (if k.released.None? then !k.done && NoneFinal(k.outq, k.wire)
        else k.srcThread.Stopped? && if k.done then k.outq == [] && k.wire == [] else FinalLast(k.outq, k.wire))
  }

  /** Both sides of n are as they were at the start, and nothing is on its way. */
  predicate AsAtStart(s0: Store, d0: Store, k: State, n: Name) {
    && Look(Target(k), n) == Look(s0, n) && Look(k.dst, n) == Look(d0, n)
    && !Coming(k, n) && !Touches(k.wire, n)
  }

  /** A step may bring n in sync; otherwise it changes nothing of it. */
  predicate NameStep(s0: Store, d0: Store, k: State, k2: State, n: Name) {
    && (InSync(k, n) ==> InSync(k2, n))
    && (AsAtStart(s0, d0, k, n) ==> InSync(k2, n) || AsAtStart(s0, d0, k2, n))
  }

  ghost predicate StepOk(s0: Store, d0: Store, k: State, k2: State) {
    Tail(k2) && forall n :: NameStep(s0, d0, k, k2, n)
  }

  lemma CommitStep(s0: Store, d0: Store, k: State, n: Name, v: Option<Obj>)
    requires Tail(k) && !k.commitsLocked && !Held(k, n)
    ensures StepOk(s0, d0, k, ApplyCommit(k, n, v))
  {
    hide Look, Put, Touches, NoneFinal, FinalLast;
    var k2 := ApplyCommit(k, n, v);
    forall m
      ensures NameStep(s0, d0, k, k2, m)
      ensures m != n ==> Look(k2.src, m) == Look(k.src, m)
    {
      CommitName(k, n, v, m);
    }
  }

  lemma ForwardStep(s0: Store, d0: Store, k: State, n: Name)
    requires Tail(k) && n in k.committing
    ensures StepOk(s0, d0, k, ApplyForward(k, n))
  {
    hide Look, Touches, FinalLast;
    var k2 := ApplyForward(k, n);
    forall m
      ensures NameStep(s0, d0, k, k2, m)
    {
      ForwardName(k, n, m);
    }
  }

  lemma SerializeTail(k: State)
    requires Tail(k) && k.outq != []
    ensures Tail(ApplySerialize(k))
  {
    hide Look;
    var k2 := ApplySerialize(k);
    assert k.outq == [k.outq[0]] + k2.outq;
    if k.released.Some? && k2.outq != [] {
      assert k2.outq[..|k2.outq| - 1] == k.outq[1..|k.outq| - 1];
    }
    assert k2.wire[..|k2.wire| - 1] == k.wire;
  }

  lemma SerializeStep(s0: Store, d0: Store, k: State)
    requires Tail(k) && k.outq != []
    ensures StepOk(s0, d0, k, ApplySerialize(k))
  {
    SerializeTail(k);
    hide Look, Tail, Touches, Eff;
    forall m
      ensures NameStep(s0, d0, k, ApplySerialize(k), m)
    {
      SerializeName(k, m);
    }
  }

  lemma DeliverTail(k: State)
    requires Tail(k) && k.wire != []
    ensures Tail(ApplyDeliver(k))
  {
    DeliverFields(k);
    hide Look, Put, ApplyDeliver;
    var k2 := ApplyDeliver(k);
    if k.released.Some? && !k.done && k.outq == [] && |k.wire| > 1 {
      assert k2.wire[..|k2.wire| - 1] == k.wire[1..|k.wire| - 1];
      assert k.wire[..|k.wire| - 1][0] == k.wire[0];
    }
  }

  lemma DeliverStep(s0: Store, d0: Store, k: State)
    requires Tail(k) && k.wire != []
    ensures StepOk(s0, d0, k, ApplyDeliver(k))
  {
    DeliverTail(k);
    DeliverFields(k);
    hide Look, Tail, Touches, Eff, Put, ApplyDeliver;
    forall m
      ensures NameStep(s0, d0, k, ApplyDeliver(k), m)
    {
      DeliverName(k, m);
    }
  }

  lemma CompareStep(s0: Store, d0: Store, k: State, n: Name)
    requires Tail(k) && k.srcThread.Comparing?
    ensures StepOk(s0, d0, k, ApplySrcCompare(k, n))
  {
    hide Look, Touches, FinalLast, Mismatch;
    var k2 := ApplySrcCompare(k, n);
    forall m
      ensures NameStep(s0, d0, k, k2, m)
    {
      if k2.outq != k.outq {
        assert k2.outq == k.outq + [QObj(n)] && k2.outq[|k.outq|] == QObj(n);
      }
    }
  }

  /** Only the conversation moves on, by at most one message. */
  predicate ControlChange(k: State, k2: State) {
    && k2.released == k.released && k2.done == k.done
    && k2.src == k.src && k2.dst == k.dst && k2.wire == k.wire && k2.committing == k.committing
    && (k.srcThread.Stopped? ==> k2.srcThread.Stopped? && k2.outq == k.outq)
    && (k2.outq == k.outq
        || (|k2.outq| == |k.outq| + 1 && k2.outq[..|k.outq|] == k.outq
            && k2.outq[|k.outq|].QCtl? && !k2.outq[|k.outq|].msg.CopyComplete?))
  }

  lemma ControlStep(s0: Store, d0: Store, k: State, k2: State)
    requires Tail(k) && ControlChange(k, k2) && CommitInv(k2)
    ensures StepOk(s0, d0, k, k2)
  {
    hide Look, Touches, FinalLast;
    if k2.outq != k.outq {
      assert k2.outq == k.outq + [k2.outq[|k.outq|]];
    }
    forall m
      ensures NameStep(s0, d0, k, k2, m)
    {
      ControlName(k, k2, m);
    }
  }

  lemma ReleaseTail(k: State)
    requires Tail(k) && k.srcThread.Stopped? && k.released.None?
    ensures Tail(ApplyRelease(k))
  {
    var k2 := ApplyRelease(k);
    assert k2.outq[..|k2.outq| - 1] == k.outq;
    hide Look;
  }

  lemma ReleaseStep(s0: Store, d0: Store, k: State)
    requires Tail(k) && k.commitsLocked && k.srcThread.Stopped? && k.released.None?
    ensures StepOk(s0, d0, k, ApplyRelease(k))
  {
    ReleaseTail(k);
    hide Look, Touches, LockInv, NoneFinal, FinalLast;
    var k2 := ApplyRelease(k);
    assert k2.outq == k.outq + [QCtl(CopyComplete)];
    forall m
      ensures NameStep(s0, d0, k, k2, m)
    {
      assert QObj(m) in k2.outq <==> QObj(m) in k.outq;
    }
  }

  lemma AnyStep(cfg: Config, s0: Store, d0: Store, k: State, a: Action)
    requires Tail(k) && Enabled(cfg, k, a)
    ensures StepOk(s0, d0, k, Apply(cfg, k, a))
  {
    hide Tail, StepOk;
    match a
    case Commit(n, v) => CommitStep(s0, d0, k, n, v);
    case Forward(n) => ForwardStep(s0, d0, k, n);
    case Serialize => SerializeStep(s0, d0, k);
    case Deliver => DeliverStep(s0, d0, k);
    case SrcCompare(n) => CompareStep(s0, d0, k, n);
    case Release => ReleaseStep(s0, d0, k);
    case _ => OtherStep(cfg, s0, d0, k, a);
  }

  lemma DstChange(cfg: Config, k: State, a: Action)
    requires IsDstStep(a) && Enabled(cfg, k, a)
    ensures ControlChange(k, Apply(cfg, k, a)) && Apply(cfg, k, a).commitsLocked == k.commitsLocked
  {
    hide MayYield, Look, AnswerOne, ListOne, Held, DstReplies, DstTurnsTo, StartWalk;
  }

  lemma TakeChange(k: State)
    requires k.back != [] && k.srcThread.Waiting?
    ensures ControlChange(k, ApplySrcTake(k)) && ApplySrcTake(k).commitsLocked == k.commitsLocked
  {
  }

  lemma NextChange(k: State, batch: set<Name>)
    requires k.srcThread.Comparing?
    ensures ControlChange(k, ApplySrcNext(k, batch)) && ApplySrcNext(k, batch).commitsLocked == k.commitsLocked
  {
  }

  lemma SrcChange(cfg: Config, k: State, a: Action)
    requires !IsDstStep(a) && !a.SrcTake? && !a.SrcNext? && Enabled(cfg, k, a)
    requires !a.Commit? && !a.Forward? && !a.Serialize? && !a.Deliver? && !a.SrcCompare? && !a.Release?
    ensures ControlChange(k, Apply(cfg, k, a)) && (CommitInv(k) ==> CommitInv(Apply(cfg, k, a)))
  {
    hide MayYield, Look, Held, UuidsOf;
  }

  lemma OtherChange(cfg: Config, k: State, a: Action)
    requires Enabled(cfg, k, a)
    requires !a.Commit? && !a.Forward? && !a.Serialize? && !a.Deliver? && !a.SrcCompare? && !a.Release?
    ensures ControlChange(k, Apply(cfg, k, a)) && (CommitInv(k) ==> CommitInv(Apply(cfg, k, a)))
  {
    if IsDstStep(a) {
      DstChange(cfg, k, a);
    } else if a.SrcTake? {
      TakeChange(k);
    } else if a.SrcNext? {
      NextChange(k, a.batch);
    } else {
      SrcChange(cfg, k, a);
    }
    hide ControlChange, Enabled, IsDstStep, ApplySrcTake, ApplySrcNext;
    assert a == SrcTake ==> Apply(cfg, k, a) == ApplySrcTake(k);
    assert a.SrcNext? ==> Apply(cfg, k, a) == ApplySrcNext(k, a.batch);
  }

  lemma OtherStep(cfg: Config, s0: Store, d0: Store, k: State, a: Action)
    requires Tail(k) && Enabled(cfg, k, a)
    requires !a.Commit? && !a.Forward? && !a.Serialize? && !a.Deliver? && !a.SrcCompare? && !a.Release?
    ensures StepOk(s0, d0, k, Apply(cfg, k, a))
  {
    hide StepOk, LockInv, NoneFinal, FinalLast, ControlChange, Enabled, Apply;
    OtherChange(cfg, k, a);
    ControlStep(s0, d0, k, Apply(cfg, k, a));
  }

  lemma {:induction false} AnyRun(cfg: Config, s0: Store, d0: Store, k: State, acts: seq<Action>, k2: State)
    requires Tail(k) && Runs(cfg, k, acts, k2)
    ensures Tail(k2)
    ensures forall n :: InSync(k, n) ==> InSync(k2, n)
    ensures (forall n :: InSync(k, n) || AsAtStart(s0, d0, k, n)) ==> forall n :: InSync(k2, n) || AsAtStart(s0, d0, k2, n)
    decreases |acts|
  {
    hide Tail, InSync, AsAtStart, Apply, Enabled;
    if acts != [] {
      var k1 := Apply(cfg, k, acts[0]);
      AnyStep(cfg, s0, d0, k, acts[0]);
      forall n
        ensures InSync(k, n) ==> InSync(k1, n)
        ensures AsAtStart(s0, d0, k, n) ==> InSync(k1, n) || AsAtStart(s0, d0, k1, n)
      {
        assert NameStep(s0, d0, k, k1, n);
      }
      AnyRun(cfg, s0, d0, k1, acts[1..], k2);
    }
  }

  // ------------------------------------------------------------ what it means for a copy

  lemma AtTheStart(s0: Store, d0: Store, n: Name)
    ensures var k := Init(s0, d0);
      Tail(k) && AsAtStart(s0, d0, k, n) && (s0 == d0 ==> InSync(k, n))
  {
  }

  /**
   A name in sync stays in sync whatever is committed and whatever the copy
   does afterwards, also when it aborts.
   */
  lemma OnceInSyncAlways(cfg: Config, s0: Store, d0: Store, acts: seq<Action>, k: State, more: seq<Action>, k2: State, n: Name)
    requires Runs(cfg, Init(s0, d0), acts, k) && Runs(cfg, k, more, k2) && InSync(k, n)
    ensures InSync(k2, n)
  {
    AtTheStart(s0, d0, n);
    AnyRun(cfg, s0, d0, Init(s0, d0), acts, k);
    AnyRun(cfg, s0, d0, k, more, k2);
  }

  /**
   When the final message arrives after any run, each name holds what was
   released, or is on both sides what it was before the copy.
   */
  lemma ReleasedOrAsAtStart(cfg: Config, s0: Store, d0: Store, acts: seq<Action>, k: State, n: Name)
    requires Runs(cfg, Init(s0, d0), acts, k) && k.done
    ensures k.released.Some?
    ensures Look(k.dst, n) == Look(k.released.value, n)
      || (Look(k.dst, n) == Look(d0, n) && Look(k.released.value, n) == Look(s0, n))
  {
    forall m
      ensures AsAtStart(s0, d0, Init(s0, d0), m) && Tail(Init(s0, d0))
    {
      AtTheStart(s0, d0, m);
    }
    AnyRun(cfg, s0, d0, Init(s0, d0), acts, k);
    assert InSync(k, n) || AsAtStart(s0, d0, k, n);
  }

  /** A lone final message is queued and arrives. */
  lemma FinalArrives(cfg: Config, k: State) returns (acts: seq<Action>, k2: State)
    requires k.commitsLocked && k.srcThread.Stopped? && k.released.None? && k.outq == [] && k.wire == []
    ensures Runs(cfg, k, acts, k2) && k2 == k.(released := Some(k.src), done := true)
  {
    var k3 := Apply(cfg, k, Release);
    assert k3.outq == [QCtl(CopyComplete)];
    var k4 := Apply(cfg, k3, Serialize);
    assert k4.wire == [WCtl(CopyComplete)];
    k2 := Apply(cfg, k4, Deliver);
    Prepend(cfg, k4, Deliver, [], k2);
    Prepend(cfg, k3, Serialize, [Deliver] + [], k2);
    Prepend(cfg, k, Release, [Serialize] + ([Deliver] + []), k2);
    acts := [Release] + ([Serialize] + ([Deliver] + []));
  }

  /**
   The release does not ask whether the copy succeeded: from any start the
   destination can be told the copy is complete with nothing copied.
   */
  lemma UnsuccessfulReleaseCopiesNothing(cfg: Config, s0: Store, d0: Store) returns (acts: seq<Action>, k: State)
    ensures Runs(cfg, Init(s0, d0), acts, k)
    ensures k.done && !k.success && k.released == Some(s0) && k.dst == d0
  {
    var k1 := Apply(cfg, Init(s0, d0), SrcAbort);
    var k2 := Apply(cfg, k1, LockCommits);
    acts, k := FinalArrives(cfg, k2);
    Prepend(cfg, k1, LockCommits, acts, k);
    Prepend(cfg, Init(s0, d0), SrcAbort, [LockCommits] + acts, k);
    acts := [SrcAbort] + ([LockCommits] + acts);
  }

  lemma DrainsOne(cfg: Config, k: State) returns (a: Action)
    requires Tail(k) && k.released.Some? && !k.done
    ensures Enabled(cfg, k, a) && (a.Serialize? || a.Deliver?)
    ensures var k1 := Apply(cfg, k, a);
      && k1.released == k.released && k1.success == k.success
      && 2 * |k1.outq| + |k1.wire| < 2 * |k.outq| + |k.wire|
  {
    hide NoneFinal, CommitInv, LockInv;
    a := if k.outq != [] then Serialize else Deliver;
  }

  /** Everything queued is written and delivered, the final message last. */
  lemma {:induction false} DrainsToDone(cfg: Config, s0: Store, d0: Store, k: State) returns (acts: seq<Action>, k2: State)
    requires Tail(k) && k.released.Some?
    ensures Runs(cfg, k, acts, k2) && forall i :: 0 <= i < |acts| ==> acts[i].Serialize? || acts[i].Deliver?
    ensures k2.done && k2.released == k.released && k2.success == k.success
    decreases 2 * |k.outq| + |k.wire|
  {
    if k.done {
      acts, k2 := [], k;
    } else {
      var a := DrainsOne(cfg, k);
      var k1 := Apply(cfg, k, a);
      AnyStep(cfg, s0, d0, k, a);
      hide Tail, Apply, Enabled, StepOk;
      acts, k2 := DrainsToDone(cfg, s0, d0, k1);
      Prepend(cfg, k, a, acts, k2);
      acts := [a] + acts;
    }
  }

  /**
   From any state of any run after the release, delivering what is under way
   ends with the destination being told that the copy is complete; if it
   succeeded, with exactly what was released.
   */
  lemma ReleaseIsTold(cfg: Config, s0: Store, d0: Store, before: seq<Action>, k: State) returns (acts: seq<Action>, k2: State)
    requires cfg.chunk >= 1 && Reaches(cfg, s0, d0, before, k) && k.released.Some?
    ensures Runs(cfg, k, acts, k2) && forall i :: 0 <= i < |acts| ==> acts[i].Serialize? || acts[i].Deliver?
    ensures k2.done && k2.released == k.released
    ensures k.success ==> k2.dst == k.released.value
  {
    AtTheStart(s0, d0, "");
    AnyRun(cfg, s0, d0, Init(s0, d0), before, k);
    hide Tail;
    acts, k2 := DrainsToDone(cfg, s0, d0, k);
    RunsCompose(cfg, Init(s0, d0), before, k, acts, k2);
    if k.success {
      CompletedCopyIsIdentical(cfg, s0, d0, before + acts, k2);
    }
  }

  /** What the destination holds when it is told that the copy is complete is what was released. */
  ghost predicate ReleasesExactly(cfg: Config, s0: Store, d0: Store, successOnly: bool) {
    forall acts, k {:trigger Runs(cfg, Init(s0, d0), acts, k)} ::
      Runs(cfg, Init(s0, d0), acts, k) && k.done && (successOnly ==> k.success) ==> k.released == Some(k.dst)
  }

  /**
   A release that does not ask for success is always exact if and only if the
   two repositories were equal to begin with.
   */
  lemma UncheckedReleaseExactIffEqual(cfg: Config, s0: Store, d0: Store)
    ensures ReleasesExactly(cfg, s0, d0, false) <==> s0 == d0
  {
    if s0 == d0 {
      forall acts, k {:trigger Runs(cfg, Init(s0, d0), acts, k)} | Runs(cfg, Init(s0, d0), acts, k) && k.done
        ensures k.released == Some(k.dst)
      {
        ReleasedOrAsAtStart(cfg, s0, d0, acts, k, "");
        forall n
          ensures Look(k.dst, n) == Look(k.released.value, n)
        {
          AtTheStart(s0, d0, n);
          OnceInSyncAlways(cfg, s0, d0, [], Init(s0, d0), acts, k, n);
          ReleasedOrAsAtStart(cfg, s0, d0, acts, k, n);
        }
        StoresEqual(k.dst, k.released.value);
      }
    } else {
      var acts, k := UnsuccessfulReleaseCopiesNothing(cfg, s0, d0);
    }
  }

  /** A release that asks for success is exact whatever the two repositories held. */
  lemma CheckedReleaseExact(cfg: Config, s0: Store, d0: Store)
    requires Start(cfg, s0, d0) && cfg.chunk >= 1
    ensures ReleasesExactly(cfg, s0, d0, true)
  {
    forall acts, k {:trigger Runs(cfg, Init(s0, d0), acts, k)} | Runs(cfg, Init(s0, d0), acts, k) && k.done && k.success
      ensures k.released == Some(k.dst)
    {
      CompletedCopyIsIdentical(cfg, s0, d0, acts, k);
    }
  }

  // ------------------------------------------------------------ a release that does not wait for commits

  lemma OtherStays(cfg: Config, k: State, a: Action, n: Name)
    requires Tail(k) && k.released.Some? && Enabled(cfg, k, a)
    requires !a.Commit? && !a.Forward? && !a.Serialize? && !a.Deliver?
    ensures Apply(cfg, k, a).released == k.released && Eff(Apply(cfg, k, a), n) == Eff(k, n)
  {
    assert !a.SrcCompare? && !a.Release?;
    hide Apply, Enabled, Eff, Tail;
    OtherChange(cfg, k, a);
    ControlName(k, Apply(cfg, k, a), n);
  }

  /** Once released, what the destination will come to hold is fixed. */
  lemma EffStays(cfg: Config, k: State, a: Action, n: Name)
    requires Tail(k) && k.released.Some? && Enabled(cfg, k, a)
    ensures Apply(cfg, k, a).released == k.released && Eff(Apply(cfg, k, a), n) == Eff(k, n)
  {
    hide Tail, Eff, Look, Put, ApplyDeliver;
    match a
    case Commit(m, v) => CommitName(k, m, v, n);
    case Forward(m) => ForwardName(k, m, n);
    case Serialize => SerializeName(k, n);
    case Deliver =>
      DeliverName(k, n);
      DeliverFields(k);
    case _ => OtherStays(cfg, k, a, n);
  }

  lemma {:induction false} EffAlong(cfg: Config, k: State, acts: seq<Action>, k2: State, n: Name)
    requires Tail(k) && k.released.Some? && Runs(cfg, k, acts, k2)
    ensures Tail(k2) && k2.released == k.released && Eff(k2, n) == Eff(k, n)
    decreases |acts|
  {
    hide Tail, Eff, Apply, Enabled;
    if acts != [] {
      EffStays(cfg, k, acts[0], n);
      AnyStep(cfg, map[], map[], k, acts[0]);
      EffAlong(cfg, Apply(cfg, k, acts[0]), acts[1..], k2, n);
    }
  }

  /** A commit has changed n and has yet to call the notifier. */
  predicate Unforwarded(k: State, n: Name) {
    n in k.committing && QObj(n) !in k.outq
  }

  lemma DroppedName(cfg: Config, s0: Store, d0: Store, acts: seq<Action>, k: State, more: seq<Action>, k2: State, n: Name)
    requires cfg.chunk >= 1 && Reaches(cfg, s0, d0, acts, k) && k.success && k.released.None?
    requires Runs(cfg, ApplyRelease(k), more, k2) && k2.done
    ensures k2.released == Some(k.src)
    ensures Look(k2.dst, n) == if Unforwarded(k, n) then Net(k.wire, Look(k.dst, n), n) else Look(k.src, n)
  {
    ReachesInv(cfg, s0, d0, acts, k);
    assert OneToken(k) && NameInv(s0, d0, k, n);
    FinishedInSync(s0, d0, k, n);
    AtTheStart(s0, d0, n);
    AnyRun(cfg, s0, d0, Init(s0, d0), acts, k);
    ReleaseTail(k);
    EffAlong(cfg, ApplyRelease(k), more, k2, n);
    assert ApplyRelease(k).outq == k.outq + [QCtl(CopyComplete)];
    hide Runs, CopyInv, Reaches, LockInv, NoneFinal, FinalLast, Look;
  }

  /**
   When a successful copy's completion object is destroyed it releases without
   waiting for commits. The destination then misses exactly the changes whose
   commits have yet to call the notifier, and is exact if and only if those
   changed nothing.
   */
  lemma UnlockedReleaseMissesUnforwarded(cfg: Config, s0: Store, d0: Store, acts: seq<Action>, k: State, more: seq<Action>, k2: State)
    requires cfg.chunk >= 1 && Reaches(cfg, s0, d0, acts, k) && k.success && k.released.None?
    requires Runs(cfg, ApplyRelease(k), more, k2) && k2.done
    ensures forall n ::
      Look(k2.dst, n) == if Unforwarded(k, n) then Net(k.wire, Look(k.dst, n), n) else Look(k.src, n)
    ensures k2.released == Some(k2.dst)
      <==> forall n :: Unforwarded(k, n) ==> Net(k.wire, Look(k.dst, n), n) == Look(k.src, n)
  {
    DroppedName(cfg, s0, d0, acts, k, more, k2, "");
    forall n
      ensures Look(k2.dst, n) == if Unforwarded(k, n) then Net(k.wire, Look(k.dst, n), n) else Look(k.src, n)
    {
      DroppedName(cfg, s0, d0, acts, k, more, k2, n);
    }
    hide Runs, Reaches, Net, Unforwarded;
    if forall n :: Unforwarded(k, n) ==> Net(k.wire, Look(k.dst, n), n) == Look(k.src, n) {
      StoresEqual(k2.dst, k.src);
    }
  }
}
