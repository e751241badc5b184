/**
 Holding commits for a handoff of mastership, or for a halt. Commits need the
 commit token. A handoff or a halt retires the token and waits until the jobs
 that still hold it are done; a failed handoff issues a new one.
 */
module Handoff {
  import opened Stores

  /** How far a handoff request got: its message says which step comes next. */
  datatype Stage = Asked(toSelf: bool) | Draining | Locking | Bound | Failed

  /** Who is called when a retired token's last holder is gone. */
  datatype Watcher = ForHandoff(h: nat) | ForHalt

  datatype Msg = Continue(h: nat) | HandoffFailed | HaltContinue

  /**
   jobs: the tokens held by unfinished commit jobs. threads: the handoffs whose
   thread waits for the commit lock. live: the batons bound to this master that
   still exist. completed: the batons whose handoff was declared complete.
   failed and restores record what happened.
   */
  datatype State = State(
    token: Option<nat>, nextToken: nat, jobs: multiset<nat>, watch: map<nat, Watcher>,
    stages: map<nat, Stage>, threads: set<nat>, live: set<nat>, completed: set<nat>,
    inbox: multiset<Msg>, halted: bool,
    failed: set<nat>, restores: nat)

  datatype Action =
    | Request(h: nat, toSelf: bool)
    | TakeContinue(h: nat, locked: bool, full: bool)
    | TakeFailed
    | TakeHalt
    | HaltRequest(full: bool)
    | SubmitJob
    | JobDone(t: nat)
    | LockThreadEnds(h: nat)
    | BatonDies(h: nat)
    | HandoffComplete(h: nat)

  const START := State(Some(0), 1, multiset{}, map[], map[], {}, {}, {}, multiset{}, false, {}, 0)

  /** Taking any queued message covers every order they can arrive in. */
  predicate Enabled(s: State, a: Action) {
    match a
    case Request(h, _) => h !in s.stages
    case TakeContinue(h, _, _) => Continue(h) in s.inbox && h in s.stages
    case TakeFailed => HandoffFailed in s.inbox
    case TakeHalt => HaltContinue in s.inbox
    case HaltRequest(_) => true
    case SubmitJob => s.token.Some?
    case JobDone(t) => t in s.jobs
    case LockThreadEnds(h) => h in s.threads
    case BatonDies(h) => h in s.live
    case HandoffComplete(h) => h in s.live && h !in s.completed
  }

  function Notice(w: Watcher): Msg {
    match w
    case ForHandoff(h) => Continue(h)
    case ForHalt => HaltContinue
  }

  /** The request that holds commits is waiting for them to drain. */
  function Drain(s: State, w: Watcher): State {
    if w.ForHandoff? then s.(stages := s.stages[w.h := Draining]) else s
  }

  /** The token is dropped; its watcher is called once no job holds it any more, which may be at once. */
  function Retire(s: State, w: Watcher): State
    requires s.token.Some?
  {
    var t := s.token.value;
    if t in s.jobs then s.(token := None, watch := s.watch[t := w])
    else s.(token := None, inbox := s.inbox + multiset{Notice(w)})
  }

  /** Commits go on with a new token. */
  function Restore(s: State): State {
    s.(token := Some(s.nextToken), nextToken := s.nextToken + 1, restores := s.restores + 1)
  }

  function Fail(s: State, h: nat): State {
    Restore(s).(stages := s.stages[h := Failed], failed := s.failed + {h})
  }

  /** One step of a handoff; locked and full are what the commit lock and the quorum are at that time. */
  function ContinueStep(s: State, h: nat, locked: bool, full: bool): State
    requires h in s.stages
  {
    match s.stages[h]
    case Asked(toSelf) =>
      if toSelf || s.token.None? then s
      else Retire(Drain(s, ForHandoff(h)), ForHandoff(h))
    case Draining => s.(stages := s.stages[h := Locking], threads := s.threads + {h})
    case _ =>
      if !locked || !full then Fail(s, h)
      else s.(stages := s.stages[h := Bound], live := s.live + {h})
  }

  function HaltStep(s: State, full: bool): State {
    if !full || s.token.None? then s else Retire(s, ForHalt)
  }

  function DoneStep(s: State, t: nat): State {
    var s1 := s.(jobs := s.jobs - multiset{t});
    if t in s1.jobs || t !in s.watch then s1
    else s1.(watch := s.watch - {t}, inbox := s.inbox + multiset{Notice(s.watch[t])})
  }

  /** A baton bound to the master that ends before its handoff completed reports the failure. */
  function DieStep(s: State, h: nat): State {
    var s1 := s.(live := s.live - {h});
    if h in s.completed then s1
    else s1.(inbox := s.inbox + multiset{HandoffFailed}, failed := s.failed + {h})
  }

  function Apply(s: State, a: Action): State
    requires Enabled(s, a)
  {
    match a
    case Request(h, toSelf) => s.(stages := s.stages[h := Asked(toSelf)], inbox := s.inbox + multiset{Continue(h)})
    case TakeContinue(h, locked, full) =>
      ContinueStep(s.(inbox := s.inbox - multiset{Continue(h)}), h, locked, full)
    case TakeFailed => Restore(s.(inbox := s.inbox - multiset{HandoffFailed}))
    case TakeHalt => s.(inbox := s.inbox - multiset{HaltContinue}, halted := true)
    case HaltRequest(full) => HaltStep(s, full)
    case SubmitJob => s.(jobs := s.jobs + multiset{s.token.value})
    case JobDone(t) => DoneStep(s, t)
    case LockThreadEnds(h) => s.(threads := s.threads - {h}, inbox := s.inbox + multiset{Continue(h)})
    case BatonDies(h) => DieStep(s, h)
    case HandoffComplete(h) => s.(completed := s.completed + {h})
  }

  ghost predicate Runs(s: State, acts: seq<Action>, s2: State)
    decreases |acts|
  {
    if acts == [] then s2 == s else Enabled(s, acts[0]) && Runs(Apply(s, acts[0]), acts[1..], s2)
  }

  // ------------------------------------------------------------ who keeps commits held

  datatype Holder =
    | Nobody
    | JobsFor(t: nat, w: Watcher)
    | Drained(h: nat)
    | LockThread(h: nat)
    | LockEnded(h: nat)
    | Baton(h: nat)
    | FailureDue
    | HandedOver(h: nat)
    | HaltDue
    | Halt

  /** The messages of a handoff request fit its stage and the holder. */
  predicate StageOk(s: State, who: Holder, h: nat) {
    if h !in s.stages then s.inbox[Continue(h)] == 0
    else
      match s.stages[h]
      case Asked(_) => s.inbox[Continue(h)] <= 1
      case Draining =>
        && s.inbox[Continue(h)] == (if who == Drained(h) then 1 else 0)
        && (who == Drained(h) || (who.JobsFor? && who.w == ForHandoff(h)))
      case Locking =>
        && s.inbox[Continue(h)] == (if who == LockEnded(h) then 1 else 0)
        && (who == LockThread(h) || who == LockEnded(h))
      case _ => s.inbox[Continue(h)] == 0
  }

  predicate HolderOk(s: State, who: Holder) {
    match who
    case JobsFor(t, w) => t in s.jobs && t < s.nextToken && (w.ForHandoff? ==> w.h in s.stages && s.stages[w.h].Draining?)
    case Drained(h) => h in s.stages && s.stages[h].Draining?
    case LockThread(h) => h in s.stages && s.stages[h].Locking?
    case LockEnded(h) => h in s.stages && s.stages[h].Locking?
    case Baton(h) => h in s.stages && s.stages[h].Bound?
    case _ => true
  }

  /** Everything that could restore or keep commits held is accounted for by the one holder. */
  predicate Accounted(s: State, who: Holder) {
    && (s.token.None? <==> who != Nobody)
    && s.watch == (if who.JobsFor? then map[who.t := who.w] else map[])
    && s.threads == (if who.LockThread? then {who.h} else {})
    && s.live - s.completed == (if who.Baton? then {who.h} else {})
    && s.completed == (if who.HandedOver? then {who.h} else {})
    && s.inbox[HandoffFailed] == (if who.FailureDue? then 1 else 0)
    && s.inbox[HaltContinue] == (if who.HaltDue? then 1 else 0)
    && s.halted == who.Halt?
  }

  ghost predicate Tokens(s: State) {
    && (s.token.Some? ==> s.token.value < s.nextToken)
    && forall t :: t in s.jobs ==> s.token == Some(t) || t in s.watch
  }

  predicate Failures(s: State, who: Holder) {
    && |s.failed| == s.restores + (if who.FailureDue? then 1 else 0)
    && (forall h :: h in s.failed ==> h in s.stages && (s.stages[h].Bound? || s.stages[h].Failed?) && h !in s.live)
    && (forall h :: h in s.live ==> h in s.stages && s.stages[h].Bound?)
    && s.failed !! s.completed
    && (forall h :: h in s.stages && s.stages[h].Bound? ==> h in s.live || h in s.failed || h in s.completed)
  }

  ghost predicate Inv(s: State, who: Holder) {
    && HolderOk(s, who) && Accounted(s, who) && Tokens(s) && Failures(s, who)
    && forall h :: StageOk(s, who, h)
  }

  function HolderAfterRetire(s: State, w: Watcher): Holder
    requires s.token.Some?
  {
    if s.token.value in s.jobs then JobsFor(s.token.value, w)
    else if w.ForHandoff? then Drained(w.h) else HaltDue
  }

  /** Who holds commits after a. */
  function Next(s: State, who: Holder, a: Action): Holder
    requires Enabled(s, a)
  {
    match a
    case Request(_, _) => who
    case TakeContinue(h, locked, full) =>
      (match s.stages[h]
       case Asked(toSelf) =>
         if toSelf || s.token.None? then who else HolderAfterRetire(s, ForHandoff(h))
       case Draining => LockThread(h)
       case _ => if locked && full then Baton(h) else Nobody)
    case TakeFailed => Nobody
    case TakeHalt => Halt
    case HaltRequest(full) => if full && s.token.Some? then HolderAfterRetire(s, ForHalt) else who
    case SubmitJob => who
    case JobDone(t) =>
      if s.jobs[t] == 1 && t in s.watch
      then (if s.watch[t].ForHandoff? then Drained(s.watch[t].h) else HaltDue)
      else who
    case LockThreadEnds(h) => LockEnded(h)
    case BatonDies(h) => if h in s.completed then who else FailureDue
    case HandoffComplete(h) => HandedOver(h)
  }

  lemma RetireStages(s: State, who: Holder, w: Watcher, h: nat)
    requires s.token.Some? && who.Nobody? && StageOk(s, who, h)
    requires w.ForHandoff? ==> w.h in s.stages && s.stages[w.h].Asked? && s.inbox[Continue(w.h)] == 0
    ensures StageOk(Retire(Drain(s, w), w), HolderAfterRetire(s, w), h)
  {
  }

  lemma RetireHolder(s: State, who: Holder, w: Watcher)
    requires s.token.Some? && Accounted(s, who) && Tokens(s)
    requires w.ForHandoff? ==> w.h in s.stages
    ensures var s2, who2 := Retire(Drain(s, w), w), HolderAfterRetire(s, w); HolderOk(s2, who2) && Accounted(s2, who2)
  {
  }

  lemma RetireRecords(s: State, who: Holder, w: Watcher)
    requires s.token.Some? && Accounted(s, who) && Tokens(s) && Failures(s, who)
    requires w.ForHandoff? ==> w.h in s.stages && s.stages[w.h].Asked?
    ensures var s2, who2 := Retire(Drain(s, w), w), HolderAfterRetire(s, w); Tokens(s2) && Failures(s2, who2)
  {
  }

  lemma RetireKeeps(s: State, who: Holder, w: Watcher)
    requires Inv(s, who) && s.token.Some?
    requires w.ForHandoff? ==> w.h in s.stages && s.stages[w.h].Asked? && s.inbox[Continue(w.h)] == 0
    ensures Inv(Retire(Drain(s, w), w), HolderAfterRetire(s, w))
  {
    RetireHolder(s, who, w);
    RetireRecords(s, who, w);
    hide HolderOk, Accounted, Tokens, Failures, Retire, Drain, HolderAfterRetire, StageOk;
    forall h
      ensures StageOk(Retire(Drain(s, w), w), HolderAfterRetire(s, w), h)
    {
      RetireStages(s, who, w, h);
    }
  }

  lemma TakenKeeps(s: State, who: Holder, h: nat)
    requires Inv(s, who) && h in s.stages && s.stages[h].Asked? && Continue(h) in s.inbox
    ensures var s1 := s.(inbox := s.inbox - multiset{Continue(h)});
      Inv(s1, who) && s1.inbox[Continue(h)] == 0
  {
    var s1 := s.(inbox := s.inbox - multiset{Continue(h)});
    assert StageOk(s, who, h);
    forall g
      ensures StageOk(s1, who, g)
    {
      assert StageOk(s, who, g);
    }
  }

  lemma AskedKeeps(s: State, who: Holder, h: nat, locked: bool, full: bool)
    requires Inv(s, who) && Enabled(s, TakeContinue(h, locked, full)) && s.stages[h].Asked?
    ensures Inv(Apply(s, TakeContinue(h, locked, full)), Next(s, who, TakeContinue(h, locked, full)))
  {
    TakenKeeps(s, who, h);
    hide Inv;
    if !s.stages[h].toSelf && s.token.Some? {
      RetireKeeps(s.(inbox := s.inbox - multiset{Continue(h)}), who, ForHandoff(h));
    }
  }

  lemma DrainedKeeps(s: State, who: Holder, h: nat, locked: bool, full: bool)
    requires Inv(s, who) && Enabled(s, TakeContinue(h, locked, full)) && s.stages[h].Draining?
    ensures Inv(Apply(s, TakeContinue(h, locked, full)), Next(s, who, TakeContinue(h, locked, full)))
  {
    assert StageOk(s, who, h);
    var a := TakeContinue(h, locked, full);
    var s2, who2 := Apply(s, a), Next(s, who, a);
    forall g
      ensures StageOk(s2, who2, g)
    {
      assert StageOk(s, who, g);
    }
  }

  lemma LockedStages(s: State, who: Holder, h: nat, locked: bool, full: bool, g: nat)
    requires Enabled(s, TakeContinue(h, locked, full)) && s.stages[h].Locking? && who == LockEnded(h)
    requires StageOk(s, who, h) && StageOk(s, who, g)
    ensures var a := TakeContinue(h, locked, full); StageOk(Apply(s, a), Next(s, who, a), g)
  {
  }

  lemma LockedHolder(s: State, who: Holder, h: nat, locked: bool, full: bool)
    requires Enabled(s, TakeContinue(h, locked, full)) && s.stages[h].Locking? && who == LockEnded(h)
    requires Accounted(s, who) && Failures(s, who)
    ensures var a := TakeContinue(h, locked, full);
      HolderOk(Apply(s, a), Next(s, who, a)) && Accounted(Apply(s, a), Next(s, who, a))
  {
  }

  lemma LockedRecords(s: State, who: Holder, h: nat, locked: bool, full: bool)
    requires Enabled(s, TakeContinue(h, locked, full)) && s.stages[h].Locking? && who == LockEnded(h)
    requires Accounted(s, who) && Tokens(s) && Failures(s, who)
    ensures var a := TakeContinue(h, locked, full);
      Tokens(Apply(s, a)) && Failures(Apply(s, a), Next(s, who, a))
  {
  }

  lemma LockedKeeps(s: State, who: Holder, h: nat, locked: bool, full: bool)
    requires Inv(s, who) && Enabled(s, TakeContinue(h, locked, full)) && !s.stages[h].Asked? && !s.stages[h].Draining?
    ensures Inv(Apply(s, TakeContinue(h, locked, full)), Next(s, who, TakeContinue(h, locked, full)))
  {
    assert StageOk(s, who, h);
    LockedHolder(s, who, h, locked, full);
    LockedRecords(s, who, h, locked, full);
    var a := TakeContinue(h, locked, full);
    hide HolderOk, Accounted, Tokens, Failures, Apply, Next, StageOk;
    forall g
      ensures StageOk(Apply(s, a), Next(s, who, a), g)
    {
      LockedStages(s, who, h, locked, full, g);
    }
  }

  lemma RequestStages(s: State, who: Holder, h: nat, toSelf: bool, g: nat)
    requires Enabled(s, Request(h, toSelf)) && HolderOk(s, who) && StageOk(s, who, h) && StageOk(s, who, g)
    ensures StageOk(Apply(s, Request(h, toSelf)), who, g)
  {
  }

  lemma RequestHolder(s: State, who: Holder, h: nat, toSelf: bool)
    requires Enabled(s, Request(h, toSelf)) && HolderOk(s, who) && Accounted(s, who)
    ensures var s2 := Apply(s, Request(h, toSelf)); HolderOk(s2, who) && Accounted(s2, who)
  {
  }

  lemma RequestRecords(s: State, who: Holder, h: nat, toSelf: bool)
    requires Enabled(s, Request(h, toSelf)) && Tokens(s) && Failures(s, who)
    ensures var s2 := Apply(s, Request(h, toSelf)); Tokens(s2) && Failures(s2, who)
  {
  }

  lemma RequestKeeps(s: State, who: Holder, h: nat, toSelf: bool)
    requires Inv(s, who) && Enabled(s, Request(h, toSelf))
    ensures Inv(Apply(s, Request(h, toSelf)), Next(s, who, Request(h, toSelf)))
  {
    RequestHolder(s, who, h, toSelf);
    RequestRecords(s, who, h, toSelf);
    assert Next(s, who, Request(h, toSelf)) == who;
    hide HolderOk, Accounted, Tokens, Failures, Apply, StageOk;
    forall g
      ensures StageOk(Apply(s, Request(h, toSelf)), who, g)
    {
      RequestStages(s, who, h, toSelf, g);
    }
  }

  lemma FailedKeeps(s: State, who: Holder)
    requires Inv(s, who) && Enabled(s, TakeFailed)
    ensures Inv(Apply(s, TakeFailed), Next(s, who, TakeFailed))
  {
    var a := TakeFailed;
    var s2, who2 := Apply(s, a), Next(s, who, a);
    forall g
      ensures StageOk(s2, who2, g)
    {
      assert StageOk(s, who, g);
    }
  }

  lemma HaltedKeeps(s: State, who: Holder)
    requires Inv(s, who) && Enabled(s, TakeHalt)
    ensures Inv(Apply(s, TakeHalt), Next(s, who, TakeHalt))
  {
    var a := TakeHalt;
    var s2, who2 := Apply(s, a), Next(s, who, a);
    forall g
      ensures StageOk(s2, who2, g)
    {
      assert StageOk(s, who, g);
    }
  }

  lemma SubmitKeeps(s: State, who: Holder)
    requires Inv(s, who) && Enabled(s, SubmitJob)
    ensures Inv(Apply(s, SubmitJob), Next(s, who, SubmitJob))
  {
    var a := SubmitJob;
    var s2, who2 := Apply(s, a), Next(s, who, a);
    forall g
      ensures StageOk(s2, who2, g)
    {
      assert StageOk(s, who, g);
    }
  }

  lemma DoneKeeps(s: State, who: Holder, t: nat)
    requires Inv(s, who) && Enabled(s, JobDone(t))
    ensures Inv(Apply(s, JobDone(t)), Next(s, who, JobDone(t)))
  {
    var a := JobDone(t);
    var s2, who2 := Apply(s, a), Next(s, who, a);
    forall g
      ensures StageOk(s2, who2, g)
    {
      assert StageOk(s, who, g);
    }
  }

  lemma ThreadKeeps(s: State, who: Holder, h: nat)
    requires Inv(s, who) && Enabled(s, LockThreadEnds(h))
    ensures Inv(Apply(s, LockThreadEnds(h)), Next(s, who, LockThreadEnds(h)))
  {
    var a := LockThreadEnds(h);
    var s2, who2 := Apply(s, a), Next(s, who, a);
    forall g
      ensures StageOk(s2, who2, g)
    {
      assert StageOk(s, who, g);
    }
  }

  lemma DieKeeps(s: State, who: Holder, h: nat)
    requires Inv(s, who) && Enabled(s, BatonDies(h))
    ensures Inv(Apply(s, BatonDies(h)), Next(s, who, BatonDies(h)))
  {
    var a := BatonDies(h);
    var s2, who2 := Apply(s, a), Next(s, who, a);
    assert h in s.live - s.completed || h in s.completed;
    assert s2.live - s2.completed == s.live - s.completed - {h};
    forall g
      ensures StageOk(s2, who2, g)
    {
      assert StageOk(s, who, g);
    }
  }

  lemma CompleteKeeps(s: State, who: Holder, h: nat)
    requires Inv(s, who) && Enabled(s, HandoffComplete(h))
    ensures Inv(Apply(s, HandoffComplete(h)), Next(s, who, HandoffComplete(h)))
  {
    var a := HandoffComplete(h);
    var s2, who2 := Apply(s, a), Next(s, who, a);
    assert h in s.live - s.completed || h in s.completed;
    assert s2.live - s2.completed == s.live - s.completed - {h};
    forall g
      ensures StageOk(s2, who2, g)
    {
      assert StageOk(s, who, g);
    }
  }

  lemma StepKeeps(s: State, who: Holder, a: Action)
    requires Inv(s, who) && Enabled(s, a)
    ensures Inv(Apply(s, a), Next(s, who, a))
  {
    hide Inv, ContinueStep, HaltStep, DoneStep, DieStep, Restore, Next;
    match a
    case Request(h, toSelf) => RequestKeeps(s, who, h, toSelf);
    case TakeContinue(h, locked, full) =>
      if s.stages[h].Asked? {
        AskedKeeps(s, who, h, locked, full);
      } else if s.stages[h].Draining? {
        DrainedKeeps(s, who, h, locked, full);
      } else {
        LockedKeeps(s, who, h, locked, full);
      }
    case TakeFailed => FailedKeeps(s, who);
    case TakeHalt => HaltedKeeps(s, who);
    case HaltRequest(full) => HaltKeeps(s, who, full);
    case SubmitJob => SubmitKeeps(s, who);
    case JobDone(t) => DoneKeeps(s, who, t);
    case LockThreadEnds(h) => ThreadKeeps(s, who, h);
    case BatonDies(h) => DieKeeps(s, who, h);
    case HandoffComplete(h) => CompleteKeeps(s, who, h);
  }

  lemma HaltKeeps(s: State, who: Holder, full: bool)
    requires Inv(s, who)
    ensures Inv(Apply(s, HaltRequest(full)), Next(s, who, HaltRequest(full)))
  {
    hide Inv;
    if full && s.token.Some? {
      RetireKeeps(s, who, ForHalt);
    }
  }

  // ------------------------------------------------------------ over every run

  lemma {:induction false} RunKeeps(s: State, who: Holder, acts: seq<Action>, s2: State) returns (who2: Holder)
    requires Inv(s, who) && Runs(s, acts, s2)
    ensures Inv(s2, who2)
    decreases |acts|
  {
    hide Inv, Apply, Enabled, Next;
    if acts == [] {
      who2 := who;
    } else {
      StepKeeps(s, who, acts[0]);
      who2 := RunKeeps(Apply(s, acts[0]), Next(s, who, acts[0]), acts[1..], s2);
    }
  }

  lemma Reached(acts: seq<Action>, s: State) returns (who: Holder)
    requires Runs(START, acts, s)
    ensures Inv(s, who)
  {
    assert START.live - START.completed == {};
    assert Inv(START, Nobody);
    who := RunKeeps(START, Nobody, acts, s);
  }

  /** The handoffs whose next step is due: commits are drained, or the lock thread has ended. */
  function Due(s: State): set<nat> {
    set h | h in s.stages && Continue(h) in s.inbox && (s.stages[h].Draining? || s.stages[h].Locking?)
  }

  /** Everything that keeps commits held, counted. */
  function Reasons(s: State): nat {
    |s.watch| + |Due(s)| + |s.threads| + |s.live - s.completed| + |s.completed|
      + s.inbox[HandoffFailed] + s.inbox[HaltContinue] + (if s.halted then 1 else 0)
  }

  lemma DueIs(s: State, who: Holder)
    requires Inv(s, who)
    ensures Due(s) == if who.Drained? || who.LockEnded? then {who.h} else {}
  {
    forall h
      ensures h in Due(s) <==> (who.Drained? || who.LockEnded?) && who.h == h
    {
      assert StageOk(s, who, h);
    }
  }

  /**
   In every reachable state commits are enabled and nothing is under way, or
   they are held for exactly one reason: jobs that still have the old token, a
   handoff step that is due, its lock thread, its baton, a failure to be told,
   a handoff that completed, or a halt.
   */
  lemma HeldForExactlyOneReason(acts: seq<Action>, s: State)
    requires Runs(START, acts, s)
    ensures Reasons(s) == if s.token.None? then 1 else 0
  {
    var who := Reached(acts, s);
    DueIs(s, who);
    hide Tokens, Failures, StageOk;
  }

  /** The commit lock is requested only when no commit job is left, and then nothing else is under way. */
  lemma LockedWithoutJobs(acts: seq<Action>, s: State, h: nat, locked: bool, full: bool)
    requires Runs(START, acts, s) && Enabled(s, TakeContinue(h, locked, full)) && s.stages[h].Draining?
    ensures s.jobs == multiset{} && s.token.None? && s.threads == {} && s.live <= s.completed
    ensures Apply(s, TakeContinue(h, locked, full)).threads == {h}
  {
    var who := Reached(acts, s);
    assert StageOk(s, who, h);
    assert who == Drained(h);
    assert forall t :: t !in s.jobs;
  }

  /**
   With the lock requested, the next step of a handoff binds its baton if and
   only if the lock is held and the quorum is full; otherwise the handoff fails
   and commits go on with a new token.
   */
  lemma BoundIffLockedAndFull(acts: seq<Action>, s: State, h: nat, locked: bool, full: bool)
    requires Runs(START, acts, s) && Enabled(s, TakeContinue(h, locked, full)) && s.stages[h].Locking?
    ensures var s2 := Apply(s, TakeContinue(h, locked, full));
      && (s2.stages[h] == Bound <==> locked && full) && (s2.stages[h] == Failed <==> !(locked && full))
      && (h in s2.live <==> locked && full)
      && (s2.token.None? <==> locked && full)
      && (s2.token.Some? ==> s2.token.value !in s.jobs && s2.restores == s.restores + 1)
  {
    var who := Reached(acts, s);
    assert StageOk(s, who, h);
    assert h !in s.live;
    hide Inv, HolderOk, StageOk;
  }

  /** A baton comes to be bound in no other way, and never while commit jobs go on. */
  lemma BoundOnlyByLastStep(acts: seq<Action>, s: State, a: Action, h: nat)
    requires Runs(START, acts, s) && Enabled(s, a) && h !in s.live && h in Apply(s, a).live
    ensures a == TakeContinue(h, true, true) && s.stages[h].Locking? && s.jobs == multiset{} && s.token.None?
  {
    var who := Reached(acts, s);
    OnlyStepBinds(s, a, h);
    assert StageOk(s, who, h);
    assert forall t :: t !in s.jobs;
  }

  lemma OnlyStepBinds(s: State, a: Action, h: nat)
    requires Enabled(s, a) && h !in s.live && h in Apply(s, a).live
    ensures a == TakeContinue(h, true, true) && !s.stages[h].Asked? && !s.stages[h].Draining?
  {
  }

  lemma AndThen(s: State, a: Action, acts: seq<Action>, s2: State)
    requires Enabled(s, a) && Runs(Apply(s, a), acts, s2)
    ensures Runs(s, [a] + acts, s2)
  {
    assert ([a] + acts)[1..] == acts;
  }

  /** Once commits are drained, the lock and a full quorum lead to a bound baton. */
  lemma DrainedBinds(s: State, h: nat) returns (acts: seq<Action>, s2: State)
    requires Inv(s, Drained(h))
    ensures Runs(s, acts, s2) && h in s2.stages && s2.stages[h] == Bound && h in s2.live && s2.token.None?
  {
    assert StageOk(s, Drained(h), h);
    var s0 := Apply(s, TakeContinue(h, true, true));
    assert h in s0.threads;
    var s1 := Apply(s0, LockThreadEnds(h));
    assert Enabled(s1, TakeContinue(h, true, true));
    s2 := Apply(s1, TakeContinue(h, true, true));
    hide Apply, Enabled, Inv, StageOk;
    AndThen(s1, TakeContinue(h, true, true), [], s2);
    AndThen(s0, LockThreadEnds(h), [TakeContinue(h, true, true)] + [], s2);
    AndThen(s, TakeContinue(h, true, true), [LockThreadEnds(h)] + ([TakeContinue(h, true, true)] + []), s2);
    acts := [TakeContinue(h, true, true)] + ([LockThreadEnds(h)] + ([TakeContinue(h, true, true)] + []));
  }

  /** The jobs that hold the retired token end one by one. */
  lemma {:induction false} JobsDrain(s: State, t: nat, h: nat) returns (acts: seq<Action>, s2: State)
    requires Inv(s, JobsFor(t, ForHandoff(h)))
    ensures Runs(s, acts, s2) && h in s2.stages && s2.stages[h] == Bound && h in s2.live && s2.token.None?
    decreases s.jobs[t]
  {
    var a := JobDone(t);
    var s1 := Apply(s, a);
    StepKeeps(s, JobsFor(t, ForHandoff(h)), a);
    assert s1.jobs[t] < s.jobs[t];
    assert Next(s, JobsFor(t, ForHandoff(h)), a) == if s.jobs[t] == 1 then Drained(h) else JobsFor(t, ForHandoff(h));
    assert Enabled(s, a);
    hide Apply, Enabled, Inv, Next;
    if s.jobs[t] == 1 {
      acts, s2 := DrainedBinds(s1, h);
    } else {
      acts, s2 := JobsDrain(s1, t, h);
    }
    AndThen(s, a, acts, s2);
    acts := [a] + acts;
  }

  /** In any reachable state with commits enabled a new handoff can be requested and brought to a bound baton. */
  lemma HandoffCanBind(before: seq<Action>, s: State, h: nat) returns (acts: seq<Action>, s2: State)
    requires Runs(START, before, s) && s.token.Some? && h !in s.stages
    ensures Runs(s, [Request(h, false)] + acts, s2) && h in s2.stages && s2.stages[h] == Bound && s2.token.None?
  {
    var who := Reached(before, s);
    var r, t := Request(h, false), TakeContinue(h, false, false);
    var s0 := Apply(s, r);
    StepKeeps(s, who, r);
    RequestIsConsidered(s, h);
    StepKeeps(s0, Nobody, t);
    var s1 := Apply(s0, t);
    var who1 := Next(s0, Nobody, t);
    assert who1 == Drained(h) || who1 == JobsFor(s.token.value, ForHandoff(h));
    hide Apply, Enabled, Inv, Next;
    if who1.Drained? {
      acts, s2 := DrainedBinds(s1, h);
    } else {
      acts, s2 := JobsDrain(s1, s.token.value, h);
    }
    AndThen(s0, t, acts, s2);
    acts := [t] + acts;
    AndThen(s, r, acts, s2);
  }

  /** A request is considered whenever its turn comes. */
  lemma RequestIsConsidered(s: State, h: nat)
    requires h !in s.stages
    ensures var s0 := Apply(s, Request(h, false));
      s0.token == s.token && s0.stages[h] == Stage.Asked(false) && Enabled(s0, TakeContinue(h, false, false))
  {
  }

  /** A handoff takes the commit token only when no other handoff or halt is under way. */
  lemma HandoffsNeverOverlap(acts: seq<Action>, s: State, g: nat, h: nat)
    requires Runs(START, acts, s) && g in s.stages && h in s.stages
    requires UnderWay(s, g) && UnderWay(s, h)
    ensures g == h && s.token.None? && !s.halted
  {
    var who := Reached(acts, s);
    assert StageOk(s, who, g) && StageOk(s, who, h);
    assert g in s.live && g !in s.completed ==> g in s.live - s.completed;
    assert h in s.live && h !in s.completed ==> h in s.live - s.completed;
  }

  predicate UnderWay(s: State, h: nat) {
    h in s.stages && (s.stages[h].Draining? || s.stages[h].Locking? || (h in s.live && h !in s.completed))
  }

  /** Each failed handoff restores commits once, or is about to; nothing else restores them. */
  lemma EachFailureRestoresOnce(acts: seq<Action>, s: State)
    requires Runs(START, acts, s)
    ensures |s.failed| == s.restores + s.inbox[HandoffFailed]
    ensures s.inbox[HandoffFailed] <= 1 && (s.inbox[HandoffFailed] == 1 ==> s.token.None?)
  {
    var who := Reached(acts, s);
  }

  /** A completed handoff or a halt keeps commits held for good. */
  lemma {:induction false} HeldForGood(acts: seq<Action>, s: State, more: seq<Action>, s2: State)
    requires Runs(START, acts, s) && (s.halted || s.completed != {}) && Runs(s, more, s2)
    ensures s2.token.None?
  {
    var who := Reached(acts, s);
    StaysHeld(s, who, more, s2);
  }

  /**
   The end of a baton that was bound to the master counts as a failure, and so
   restores commits, exactly if its own handoff was not declared complete.
   */
  lemma EndedBatonFailed(acts: seq<Action>, s: State, h: nat)
    requires Runs(START, acts, s)
    requires h in s.stages && s.stages[h].Bound? && h !in s.live
    ensures h in s.failed <==> h !in s.completed
  {
    var who := Reached(acts, s);
  }

  lemma {:induction false} StaysHeld(s: State, who: Holder, more: seq<Action>, s2: State)
    requires Inv(s, who) && (who.Halt? || who.HandedOver?) && Runs(s, more, s2)
    ensures s2.token.None?
    decreases |more|
  {
    if more != [] {
      StepKeeps(s, who, more[0]);
      FinalStays(s, who, more[0]);
      StaysHeld(Apply(s, more[0]), Next(s, who, more[0]), more[1..], s2);
    }
  }

  lemma FinalStays(s: State, who: Holder, a: Action)
    requires Inv(s, who) && (who.Halt? || who.HandedOver?) && Enabled(s, a)
    ensures Next(s, who, a) == who
  {
    assert forall h :: h in s.live && h !in s.completed ==> h in s.live - s.completed;
    match a
    case TakeContinue(h, _, _) => assert StageOk(s, who, h);
    case _ =>
  }

  // ------------------------------------------------------------ the controller and the baton

  /** The part of the controller that holds and restores commits, and what it has started. */
  class HandoffController {
    var token: Option<nat>
    var nextToken: nat
    var jobs: multiset<nat>
    var watch: map<nat, Watcher>
    var stages: map<nat, Stage>
    var threads: set<nat>
    var live: set<nat>
    var completed: set<nat>
    var inbox: multiset<Msg>
    var halted: bool
    ghost var failed: set<nat>
    ghost var restores: nat

    ghost function View(): State
      reads this
    {
      State(token, nextToken, jobs, watch, stages, threads, live, completed, inbox, halted, failed, restores)
    }

    constructor ()
      ensures View() == START
    {
      token, nextToken, jobs, watch, stages := Some(0), 1, multiset{}, map[], map[];
      threads, live, completed, inbox, halted := {}, {}, {}, multiset{}, false;
      failed, restores := {}, 0;
    }

    /** Drop the token. Whoever waits for its last holder is told at once if nobody holds it. */
    method RetireToken(w: Watcher)
      requires token.Some?
      modifies this`token, this`watch, this`inbox
      ensures View() == Retire(old(View()), w)
    {
      if token.value in jobs {
        watch := watch[token.value := w];
      } else {
        inbox := inbox + multiset{Notice(w)};
      }
      token := None;
    }

    method DispatchHandoffRequestContinue(h: nat, locked: bool, full: bool)
      requires Enabled(View(), TakeContinue(h, locked, full))
      modifies this
      ensures View() == Apply(old(View()), TakeContinue(h, locked, full))
      ensures old(stages[h]) == Stage.Asked(true) || (old(stages[h]).Asked? && old(token).None?) ==>
        stages == old(stages) && token == old(token)
      ensures old(stages[h]) == Stage.Asked(false) && old(token).Some? ==> stages[h] == Draining && token.None?
      ensures old(stages[h]) == Draining ==> stages[h] == Locking && h in threads && token == old(token)
      ensures old(stages[h]) == Locking && locked && full ==> stages[h] == Bound && h in live && token == old(token)
      ensures old(stages[h]) == Locking && !(locked && full) ==>
        stages[h] == Failed && live == old(live) && token == Some(old(nextToken))
    {
      inbox := inbox - multiset{Continue(h)};
      ContinueHandoff(h, locked, full);
    }

    method ContinueHandoff(h: nat, locked: bool, full: bool)
      requires h in stages
      modifies this
      ensures View() == ContinueStep(old(View()), h, locked, full)
    {
      match stages[h]
      case Asked(toSelf) =>
        if !toSelf && token.Some? {
          HoldCommits(h);
        }
      case Draining =>
        stages := stages[h := Locking];
        threads := threads + {h};
      case _ =>
        if !locked {
          FailHandoff(h);
        } else if !full {
          FailHandoff(h);
        } else {
          stages := stages[h := Bound];
          live := live + {h};
        }
    }

    method HoldCommits(h: nat)
      requires token.Some? && h in stages
      modifies this`token, this`watch, this`inbox, this`stages
      ensures View() == Retire(Drain(old(View()), ForHandoff(h)), ForHandoff(h))
    {
      stages := stages[h := Draining];
      RetireToken(ForHandoff(h));
    }

    method FailHandoff(h: nat)
      modifies this`token, this`nextToken, this`restores, this`stages, this`failed
      ensures View() == Fail(old(View()), h)
    {
      stages := stages[h := Failed];
      failed := failed + {h};
      RestoreCommits();
    }

    method DispatchHandoffFailed()
      requires HandoffFailed in inbox
      modifies this
      ensures View() == Apply(old(View()), TakeFailed)
      ensures token == Some(old(nextToken)) && nextToken > old(nextToken)
    {
      inbox := inbox - multiset{HandoffFailed};
      RestoreCommits();
    }

    /** A commit job holds the token it was submitted with. */
    method SubmitCommit()
      requires token.Some?
      modifies this`jobs
      ensures View() == Apply(old(View()), SubmitJob) && jobs == old(jobs) + multiset{token.value}
    {
      jobs := jobs + multiset{token.value};
    }

    /** The end of the last job that holds a retired token calls the token's watcher, once. */
    method CommitDone(t: nat)
      requires t in jobs
      modifies this`jobs, this`watch, this`inbox
      ensures View() == DoneStep(old(View()), t)
      ensures jobs == old(jobs) - multiset{t}
      ensures t in jobs || t !in old(watch) ==> watch == old(watch) && inbox == old(inbox)
      ensures t !in jobs && t in old(watch) ==>
        && watch == old(watch) - {t}
        && inbox == old(inbox) + multiset{if old(watch)[t].ForHalt? then HaltContinue else Continue(old(watch)[t].h)}
    {
      jobs := jobs - multiset{t};
      if t !in jobs && t in watch {
        inbox := inbox + multiset{Notice(watch[t])};
        watch := watch - {t};
      }
    }

    method RestoreCommits()
      modifies this`token, this`nextToken, this`restores
      ensures View() == Restore(old(View()))
    {
      token := Some(nextToken);
      nextToken := nextToken + 1;
      restores := restores + 1;
    }

    method DispatchDoHalt(full: bool) returns (accepted: bool)
      modifies this
      ensures View() == Apply(old(View()), HaltRequest(full))
      ensures accepted <==> full && old(token.Some?)
      ensures !accepted ==> View() == old(View())
      ensures accepted ==>
        && token.None?
        && (if old(token).value in jobs then watch == old(watch)[old(token).value := ForHalt] && inbox == old(inbox)
            else inbox == old(inbox) + multiset{HaltContinue} && watch == old(watch))
    {
      if !full {
        return false;
      }
      if token.None? {
        return false;
      }
      RetireToken(ForHalt);
      return true;
    }
  }

  /** A baton's own record of who was told of it, and of the master it is bound to. */
  class BatonObject {
    var masterPeers: seq<Name>
    var masterBound: bool

    /** Whom the baton's end releases, and whether it tells the master of a failure. */
    ghost function EndOf(connected: set<Name>, masterExists: bool): (seq<Name>, bool)
      reads this
    {
      (Still(masterPeers, connected), masterBound && masterExists)
    }

    constructor ()
      ensures masterPeers == [] && !masterBound
      ensures forall connected, masterExists :: EndOf(connected, masterExists) == ([], false)
    {
      masterPeers, masterBound := [], false;
    }

    /** From now on the baton's end tells the master, if it exists then, and releases whom it would have. */
    method SetMasterPtr()
      modifies this
      ensures forall connected, masterExists ::
        EndOf(connected, masterExists) == (old(EndOf(connected, masterExists)).0, masterExists)
    {
      masterBound := true;
    }

    /** From now on the baton's end also releases the peer, after the others, if it is connected then. */
    method PushBackMasterPeers(peer: Name)
      modifies this
      ensures forall connected, masterExists ::
        EndOf(connected, masterExists) == (old(EndOf(connected, masterExists)).0 + (if peer in connected then [peer] else []),
                                           old(EndOf(connected, masterExists)).1)
    {
      ghost var was := masterPeers;
      masterPeers := masterPeers + [peer];
      forall connected
        ensures Still(masterPeers, connected) == Still(was, connected) + if peer in connected then [peer] else []
      {
        StillAppend(was, peer, connected);
      }
    }

    /** From now on the baton's end releases nobody and tells nobody, whoever is connected then. */
    method MasterHandoffComplete()
      modifies this
      ensures forall connected, masterExists :: EndOf(connected, masterExists) == ([], false)
    {
      masterPeers, masterBound := [], false;
    }

    /** The end of the baton: every peer told of it that is still connected is released, and a bound master that still exists told of the failure. */
    method Destroy(connected: set<Name>, masterExists: bool) returns (released: seq<Name>, failed: bool)
      ensures (released, failed) == EndOf(connected, masterExists)
      ensures released == [] <==> forall p :: p in masterPeers ==> p !in connected
      ensures forall p :: multiset(released)[p] == if p in connected then multiset(masterPeers)[p] else 0
      ensures failed <==> masterBound && masterExists
    {
      released := [];
      var i := 0;
      while i < |masterPeers|
        invariant 0 <= i <= |masterPeers| && released == Still(masterPeers[..i], connected)
      {
        assert masterPeers[..i + 1] == masterPeers[..i] + [masterPeers[i]];
        StillAppend(masterPeers[..i], masterPeers[i], connected);
        if masterPeers[i] in connected {
          released := released + [masterPeers[i]];
        }
        i := i + 1;
      }
      assert masterPeers[..i] == masterPeers;
      StillNone(masterPeers, connected);
      forall p
        ensures multiset(released)[p] == if p in connected then multiset(masterPeers)[p] else 0
      {
        StillExactly(masterPeers, connected, p);
      }
      failed := masterBound && masterExists;
    }
  }

  function Still(peers: seq<Name>, connected: set<Name>): seq<Name> {
    if peers == [] then []
    else if peers[0] in connected then [peers[0]] + Still(peers[1..], connected)
    else Still(peers[1..], connected)
  }

  lemma {:induction false} StillAppend(peers: seq<Name>, p: Name, connected: set<Name>)
    ensures Still(peers + [p], connected) == if p in connected then Still(peers, connected) + [p] else Still(peers, connected)
  {
    if peers == [] {
      assert (peers + [p])[1..] == [];
    } else {
      assert (peers + [p])[1..] == peers[1..] + [p];
      StillAppend(peers[1..], p, connected);
    }
  }

  /** Nobody is released exactly if none of those told is connected. */
  lemma {:induction false} StillNone(peers: seq<Name>, connected: set<Name>)
    ensures Still(peers, connected) == [] <==> forall p :: p in peers ==> p !in connected
  {
    if peers != [] {
      StillNone(peers[1..], connected);
      assert peers == [peers[0]] + peers[1..];
    }
  }

  /** Exactly the connected peers among those told are released, each as often as it was told. */
  lemma {:induction false} StillExactly(peers: seq<Name>, connected: set<Name>, p: Name)
    ensures multiset(Still(peers, connected))[p] == if p in connected then multiset(peers)[p] else 0
  {
    if peers != [] {
      StillExactly(peers[1..], connected, p);
      assert peers == [peers[0]] + peers[1..];
    }
  }
}
