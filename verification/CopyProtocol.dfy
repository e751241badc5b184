/**
 The copy of one repository into another: a source thread and a destination
 thread exchange messages while other threads keep committing to the source.

 Everything the source writes goes through one first-in first-out connection.
 A message is queued, later serialized onto the connection, later delivered.
 A serializer for an object holds that object's lock until it is serialized,
 and carries the object's value as of that moment. A commit changes an object
 under its lock and then has the notifier queue a serializer for it, which
 takes the lock over.
 */
module CopyProtocol {
  import opened Stores

  /** Messages to the destination other than objects. */
  datatype ToDst =
    | BatonRequest
    | MasterList(uuids: map<Name, Uuid>)
    | MasterListDone
    | SlaveListStart
    | MasterAck
    | CopyComplete

  /** Messages to the source. */
  datatype ToSrc =
    | BatonResponse(matches: bool)
    | SlaveList(uuids: map<Name, Uuid>, nouuids: set<Name>)
    | SlaveListReady
    | SlaveListDone

  /** Waiting to be serialized. A serializer holds the lock on its object. */
  datatype Queued = QCtl(msg: ToDst) | QObj(name: Name)

  /** Serialized and not yet delivered. */
  datatype Wired = WCtl(msg: ToDst) | WObj(name: Name, value: Option<Obj>)

  /**
   A walk over a repository's directories while the repository changes: it
   must still yield every name present since the walk began, and may yield any
   name present at some time since.
   */
  datatype Walk = Walk(must: set<Name>, may: set<Name>)

  /** Starting: commits are already forwarded, the first message is not sent yet. */
  datatype SrcThread =
    | Starting
    | Waiting
    | Locking(uuids: map<Name, Uuid>, nouuids: set<Name>)
    | Comparing(uuids: map<Name, Uuid>, nouuids: set<Name>, todo: set<Name>)
    | BatchLocking(batch: set<Name>)
    | Sending(uuids: map<Name, Uuid>)
    | Stopped

  datatype DstThread =
    | Idle
    | Answering(asked: map<Name, Uuid>, todo: set<Name>, uuids: map<Name, Uuid>, nouuids: set<Name>)
    | Walking
    | Listing(todo: set<Name>, uuids: map<Name, Uuid>)

  datatype Config = Config(chunk: nat, batonMatches: bool)

  /** committing: names whose object was changed and whose commit has still to call the notifier. */
  datatype State = State(
    src: Store, dst: Store,
    outq: seq<Queued>, wire: seq<Wired>, inbox: seq<ToDst>, back: seq<ToSrc>,
    committing: set<Name>,
    srcThread: SrcThread, srcWalk: Option<Walk>,
    dstThread: DstThread, dstWalk: Option<Walk>,
    success: bool, commitsLocked: bool, released: Option<Store>, done: bool,
    sent: seq<Name>)

  datatype Action =
    | Commit(n: Name, v: Option<Obj>)
    | Forward(n: Name)
    | Serialize
    | Deliver
    | DstTake
    | DstAnswer(n: Name)
    | DstAnswered
    | DstNext(batch: set<Name>)
    | DstList(n: Name)
    | DstListed
    | SrcStart
    | SrcTake
    | SrcLock
    | SrcCompare(n: Name)
    | SrcNext(batch: set<Name>)
    | SrcRead
    | SrcSend
    | SrcAbort
    | LockCommits
    | UnlockCommits
    | Release

  /** The destination thread's own steps. */
  predicate IsDstStep(a: Action) {
    a.DstTake? || a.DstAnswer? || a.DstAnswered? || a.DstNext? || a.DstList? || a.DstListed?
  }

  function Init(s0: Store, d0: Store): State {
    State(s0, d0, [], [], [], [], {}, Starting, None, Idle, None, false, false, None, false, [])
  }

  function StartWalk(s: Store): Walk {
    Walk(s.Keys, s.Keys)
  }

  /** A walk while n, present or not, becomes v. */
  function Observe(w: Option<Walk>, present: bool, n: Name, v: Option<Obj>): Option<Walk> {
    if w.None? then None
    else if v.None? then Some(w.value.(must := w.value.must - {n}))
    else if present then w
    else Some(w.value.(may := w.value.may + {n}))
  }

  /** What one call for the next names may return: fewer than a chunk only at the end. */
  predicate MayYield(w: Walk, batch: set<Name>, chunk: nat) {
    && batch <= w.may
    && |batch| <= chunk
    && (|batch| < chunk ==> w.must <= batch)
  }

  function Yield(w: Walk, batch: set<Name>): Walk {
    Walk(w.must - batch, w.may - batch)
  }

  function UuidsOf(s: Store, names: set<Name>): map<Name, Uuid> {
    map n | n in names && n in s :: s[n].uuid
  }

  /** The source's test whether a listed object must be sent. */
  predicate Mismatch(uuids: map<Name, Uuid>, nouuids: set<Name>, n: Name, v: Option<Obj>) {
    if v.Some? then !(n in uuids && uuids[n] == v.value.uuid) else n !in nouuids
  }

  /** The lock on the listed names goes when the last of them was compared. */
  predicate HeldByThread(t: SrcThread, n: Name) {
    t.Comparing? && t.todo != {} && (n in t.uuids || n in t.nouuids)
  }

  /** Some commit, some serializer or the source thread holds the lock on n. */
  predicate Held(k: State, n: Name) {
    n in k.committing || QObj(n) in k.outq || HeldByThread(k.srcThread, n)
  }

  predicate Enabled(cfg: Config, k: State, a: Action) {
    match a
    case Commit(n, v) => !k.commitsLocked && !Held(k, n)
    case Forward(n) => n in k.committing
    case Serialize => k.outq != []
    case Deliver => k.wire != []
    case DstTake => k.inbox != [] && k.dstThread.Idle?
    case DstAnswer(n) => k.dstThread.Answering? && n in k.dstThread.todo && n in k.dstThread.asked
    case DstAnswered => k.dstThread.Answering? && k.dstThread.todo == {}
    case DstNext(batch) => k.dstThread.Walking? && k.dstWalk.Some? && MayYield(k.dstWalk.value, batch, cfg.chunk)
    case DstList(n) => k.dstThread.Listing? && n in k.dstThread.todo
    case DstListed => k.dstThread.Listing? && k.dstThread.todo == {}
    case SrcStart => k.srcThread.Starting?
    case SrcTake => k.back != [] && k.srcThread.Waiting?
    case SrcLock =>
      && k.srcThread.Locking?
      && forall n :: n in k.srcThread.uuids.Keys + k.srcThread.nouuids ==> !Held(k, n)
    case SrcCompare(n) => k.srcThread.Comparing? && n in k.srcThread.todo
    case SrcNext(batch) =>
      && k.srcThread.Comparing? && k.srcThread.todo == {}
      && (if k.srcWalk.Some? then MayYield(k.srcWalk.value, batch, cfg.chunk) else batch == {})
    case SrcRead => k.srcThread.BatchLocking? && forall n :: n in k.srcThread.batch ==> !Held(k, n)
    case SrcSend => k.srcThread.Sending?
    case SrcAbort => !k.srcThread.Stopped?
    case LockCommits => !k.commitsLocked && k.committing == {}
    case UnlockCommits => k.commitsLocked
    case Release => k.commitsLocked && k.srcThread.Stopped? && k.released.None?
  }

  function Tell(outq: seq<Queued>, msg: ToDst): seq<Queued> {
    outq + [QCtl(msg)]
  }

  /** The object is installed or removed; the commit goes on holding its lock. */
  function ApplyCommit(k: State, n: Name, v: Option<Obj>): State {
    k.(src := Put(k.src, n, v),
       srcWalk := Observe(k.srcWalk, n in k.src, n, v),
       committing := k.committing + {n})
  }

  /** The commit calls the notifier, if it is still installed, which takes the lock over. */
  function ApplyForward(k: State, n: Name): State {
    k.(committing := k.committing - {n},
       outq := if k.released.None? then k.outq + [QObj(n)] else k.outq)
  }

  function ApplySerialize(k: State): State
    requires k.outq != []
  {
    var q := k.outq[0];
    k.(outq := k.outq[1..],
       wire := k.wire + [if q.QCtl? then WCtl(q.msg) else WObj(q.name, Look(k.src, q.name))])
  }

  /** An object is installed or removed and the end noted at once; other messages wait for the thread. */
  function ApplyDeliver(k: State): State
    requires k.wire != []
  {
    var w := k.wire[0];
    k.(wire := k.wire[1..],
       dst := if w.WObj? then Put(k.dst, w.name, w.value) else k.dst,
       dstWalk := if w.WObj? then Observe(k.dstWalk, w.name in k.dst, w.name, w.value) else k.dstWalk,
       inbox := if w.WCtl? && !w.msg.CopyComplete? then k.inbox + [w.msg] else k.inbox,
       done := k.done || (w.WCtl? && w.msg.CopyComplete?))
  }

  function DstReplies(cfg: Config, msg: ToDst): seq<ToSrc> {
    match msg
    case BatonRequest => [BatonResponse(cfg.batonMatches)]
    case MasterListDone => [SlaveListReady]
    case _ => []
  }

  function DstTurnsTo(t: DstThread, msg: ToDst): DstThread {
    match msg
    case MasterList(uuids) => Answering(uuids, uuids.Keys, map[], {})
    case SlaveListStart => Walking
    case MasterAck => Walking
    case _ => t
  }

  function ApplyDstTake(cfg: Config, k: State): State
    requires k.inbox != []
  {
    var msg := k.inbox[0];
    k.(inbox := k.inbox[1..],
       back := k.back + DstReplies(cfg, msg),
       dstThread := DstTurnsTo(k.dstThread, msg),
       dstWalk := if msg.SlaveListStart? then Some(StartWalk(k.dst)) else k.dstWalk)
  }

  function AnswerOne(t: DstThread, n: Name, v: Option<Obj>): DstThread
    requires t.Answering? && n in t.asked
  {
    var left := t.todo - {n};
    if v.None? then Answering(t.asked, left, t.uuids, t.nouuids + {n})
    else if v.value.uuid == t.asked[n] then Answering(t.asked, left, t.uuids, t.nouuids)
    else Answering(t.asked, left, t.uuids[n := v.value.uuid], t.nouuids)
  }

  function ListOne(t: DstThread, n: Name, v: Option<Obj>): DstThread
    requires t.Listing?
  {
    Listing(t.todo - {n}, if v.None? then t.uuids else t.uuids[n := v.value.uuid])
  }

  function ApplyDstNext(k: State, batch: set<Name>): State
    requires k.dstWalk.Some?
  {
    k.(dstWalk := Some(Yield(k.dstWalk.value, batch)),
       dstThread := if batch == {} then Idle else Listing(batch, map[]),
       back := if batch == {} then k.back + [SlaveListDone] else k.back)
  }

  function ApplySrcStart(k: State): State {
    k.(outq := Tell(k.outq, BatonRequest), srcThread := Waiting)
  }

  /** A matching baton and the end of the slave's lists both finish the copy. */
  predicate Finishes(msg: ToSrc) {
    msg.SlaveListDone? || (msg.BatonResponse? && msg.matches)
  }

  /** A baton that does not match is handled like an empty slavelist. */
  function SrcTurnsTo(t: SrcThread, msg: ToSrc): SrcThread {
    match msg
    case BatonResponse(matches) => if matches then Stopped else Locking(map[], {})
    case SlaveList(uuids, nouuids) => Locking(uuids, nouuids)
    case SlaveListReady => t
    case SlaveListDone => Stopped
  }

  function ApplySrcTake(k: State): State
    requires k.back != []
  {
    var msg := k.back[0];
    k.(back := k.back[1..],
       outq := if msg.SlaveListReady? then Tell(k.outq, SlaveListStart) else k.outq,
       success := k.success || Finishes(msg),
       srcThread := SrcTurnsTo(k.srcThread, msg),
       srcWalk := if msg.BatonResponse? && !msg.matches then Some(StartWalk(k.src)) else k.srcWalk)
  }

  function ApplySrcCompare(k: State, n: Name): State
    requires k.srcThread.Comparing?
  {
    var t := k.srcThread;
    var differs := Mismatch(t.uuids, t.nouuids, n, Look(k.src, n));
    k.(srcThread := Comparing(t.uuids, t.nouuids, t.todo - {n}),
       outq := if differs then k.outq + [QObj(n)] else k.outq,
       sent := if differs then k.sent + [n] else k.sent)
  }

  function ApplySrcNext(k: State, batch: set<Name>): State {
    if k.srcWalk.None? then k.(outq := Tell(k.outq, MasterAck), srcThread := Waiting)
    else if batch == {} then k.(outq := Tell(k.outq, MasterListDone), srcThread := Waiting, srcWalk := None)
    else k.(srcThread := BatchLocking(batch), srcWalk := Some(Yield(k.srcWalk.value, batch)))
  }

  /** The batch is read under its lock, which goes before the list is sent. */
  function ApplySrcRead(k: State): State
    requires k.srcThread.BatchLocking?
  {
    k.(srcThread := Sending(UuidsOf(k.src, k.srcThread.batch)))
  }

  function ApplySrcSend(k: State): State
    requires k.srcThread.Sending?
  {
    k.(outq := Tell(k.outq, MasterList(k.srcThread.uuids)), srcThread := Waiting)
  }

  function ApplyRelease(k: State): State {
    k.(outq := Tell(k.outq, CopyComplete), released := Some(k.src))
  }

  function Apply(cfg: Config, k: State, a: Action): State
    requires Enabled(cfg, k, a)
  {
    match a
    case Commit(n, v) => ApplyCommit(k, n, v)
    case Forward(n) => ApplyForward(k, n)
    case Serialize => ApplySerialize(k)
    case Deliver => ApplyDeliver(k)
    case DstTake => ApplyDstTake(cfg, k)
    case DstAnswer(n) => k.(dstThread := AnswerOne(k.dstThread, n, Look(k.dst, n)))
    case DstAnswered =>
      k.(dstThread := Idle, back := k.back + [SlaveList(k.dstThread.uuids, k.dstThread.nouuids)])
    case DstNext(batch) => ApplyDstNext(k, batch)
    case DstList(n) => k.(dstThread := ListOne(k.dstThread, n, Look(k.dst, n)))
    case DstListed => k.(dstThread := Idle, back := k.back + [SlaveList(k.dstThread.uuids, {})])
    case SrcStart => ApplySrcStart(k)
    case SrcTake => ApplySrcTake(k)
    case SrcLock =>
      var t := k.srcThread;
      k.(srcThread := Comparing(t.uuids, t.nouuids, t.uuids.Keys + t.nouuids))
    case SrcCompare(n) => ApplySrcCompare(k, n)
    case SrcNext(batch) => ApplySrcNext(k, batch)
    case SrcRead => ApplySrcRead(k)
    case SrcSend => ApplySrcSend(k)
    case SrcAbort => k.(srcThread := Stopped)
    case LockCommits => k.(commitsLocked := true)
    case UnlockCommits => k.(commitsLocked := false)
    case Release => ApplyRelease(k)
  }

  /** The run acts leads from k to k2. */
  ghost predicate Runs(cfg: Config, k: State, acts: seq<Action>, k2: State)
    decreases |acts|
  {
    if acts == [] then k2 == k
    else Enabled(cfg, k, acts[0]) && Runs(cfg, Apply(cfg, k, acts[0]), acts[1..], k2)
  }

  /** Runs compose. */
  lemma {:induction false} RunsCompose(cfg: Config, k: State, a: seq<Action>, k1: State, b: seq<Action>, k2: State)
    requires Runs(cfg, k, a, k1) && Runs(cfg, k1, b, k2)
    ensures Runs(cfg, k, a + b, k2)
    decreases |a|
  {
    if a == [] {
      assert a + b == b;
    } else {
      RunsCompose(cfg, Apply(cfg, k, a[0]), a[1..], k1, b, k2);
      assert (a + b)[1..] == a[1..] + b;
    }
  }
}
