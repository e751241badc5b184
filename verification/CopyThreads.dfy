/**
 The handlers of the source and destination threads, as they run: each is tied
 to what it sends, and an undisturbed call of each to a run of the copy protocol
 with the same outcome.
 */
module CopyThreads {
  import opened Sets
  import opened Stores
  import opened CopyProtocol
  import opened CopyTheorems
  import opened Enumerator

  function Serializers(names: seq<Name>): seq<Queued> {
    seq(|names|, i requires 0 <= i < |names| => QObj(names[i]))
  }

  /** The names a slavelist makes the source send. */
  function ToSend(src: Store, uuids: map<Name, Uuid>, nouuids: set<Name>): set<Name> {
    set n | n in uuids.Keys + nouuids && Mismatch(uuids, nouuids, n, Look(src, n))
  }

  /** Objects of a masterlist that exist at the destination with another uuid. */
  function OtherUuids(dst: Store, asked: map<Name, Uuid>): map<Name, Uuid> {
    map n | n in asked && n in dst && dst[n].uuid != asked[n] :: dst[n].uuid
  }

  /** Objects of a masterlist that do not exist at the destination. */
  function NotThere(dst: Store, asked: map<Name, Uuid>): set<Name> {
    set n | n in asked && n !in dst
  }

  /** The names an enumerator with these names left returns next, and those it leaves. */
  function NextNames(rest: seq<Name>, chunk: nat): seq<Name> {
    rest[..Min(chunk, |rest|)]
  }

  function LaterNames(rest: seq<Name>, chunk: nat): seq<Name> {
    rest[Min(chunk, |rest|)..]
  }

  /** What the source sends once a slavelist is handled, given the names its enumerator has left, if there is one. */
  function SrcAnswer(src: Store, rest: Option<seq<Name>>, chunk: nat): ToDst {
    if rest.None? then MasterAck
    else if NextNames(rest.value, chunk) == [] then MasterListDone
    else MasterList(UuidsOf(src, NameSet(NextNames(rest.value, chunk))))
  }

  function SrcLeft(rest: Option<seq<Name>>, chunk: nat): Option<seq<Name>> {
    if rest.None? || NextNames(rest.value, chunk) == [] then None else Some(LaterNames(rest.value, chunk))
  }

  /** What the destination sends when it is asked for its next names. */
  function DstAnswerTo(dst: Store, rest: seq<Name>, chunk: nat): ToSrc {
    if NextNames(rest, chunk) == [] then SlaveListDone
    else SlaveList(UuidsOf(dst, NameSet(NextNames(rest, chunk))), {})
  }

  /** What there is of the source thread: what it has queued, the names its enumerator has left, how it ended. */
  datatype SrcView = SrcView(outq: seq<Queued>, rest: Option<seq<Name>>, succeeded: bool, stopped: bool)

  function SrcListed(src: Store, v: SrcView, order: seq<Name>, chunk: nat): SrcView {
    v.(outq := v.outq + Serializers(order) + [QCtl(SrcAnswer(src, v.rest, chunk))], rest := SrcLeft(v.rest, chunk))
  }

  /** What a message makes of the source: order is that of its loop over a slavelist, names that of its directory. */
  function SrcHandled(src: Store, v: SrcView, msg: ToSrc, order: seq<Name>, names: seq<Name>, chunk: nat): SrcView {
    match msg
    case BatonResponse(matches) =>
      if matches then v.(succeeded := true, stopped := true)
      else SrcListed(src, v.(rest := Some(names)), [], chunk)
    case SlaveList(_, _) => SrcListed(src, v, order, chunk)
    case SlaveListReady => v.(outq := v.outq + [QCtl(SlaveListStart)])
    case SlaveListDone => v.(succeeded := true, stopped := true)
  }

  /** What there is of the destination thread: what it has answered, its enumerator, whether it was told of the end, and stopped then. */
  datatype DstView = DstView(back: seq<ToSrc>, rest: Option<seq<Name>>, flag: bool, stopped: bool)

  /** An answer to masterack before there is an enumerator does not occur. */
  function DstHandled(dst: Store, v: DstView, msg: ToDst, names: seq<Name>, chunk: nat, batonMatches: bool): DstView
    requires msg.MasterAck? ==> v.rest.Some?
  {
    match msg
    case BatonRequest => v.(back := v.back + [BatonResponse(batonMatches)])
    case MasterList(asked) => v.(back := v.back + [SlaveList(OtherUuids(dst, asked), NotThere(dst, asked))])
    case MasterListDone => v.(back := v.back + [SlaveListReady])
    case SlaveListStart => v.(back := v.back + [DstAnswerTo(dst, names, chunk)], rest := Some(LaterNames(names, chunk)))
    case MasterAck =>
      v.(back := v.back + [DstAnswerTo(dst, v.rest.value, chunk)], rest := Some(LaterNames(v.rest.value, chunk)))
    case CopyComplete => v.(flag := true, stopped := true)
  }

  function Except(u: map<Name, Uuid>, todo: set<Name>): map<Name, Uuid> {
    u - todo
  }

  lemma HasMember(s: seq<Name>)
    ensures s == [] || exists n :: n in s
  {
    if s != [] {
      assert s[0] in s;
    }
  }

  /** One more name looked up at the destination. */
  lemma LookedUp(dst: Store, asked: map<Name, Uuid>, todo: set<Name>, n: Name)
    requires n in todo && n in asked
    ensures var u, v := Except(OtherUuids(dst, asked), todo), Look(dst, n);
      && Except(OtherUuids(dst, asked), todo - {n})
         == (if v.Some? && v.value.uuid != asked[n] then u[n := v.value.uuid] else u)
      && NotThere(dst, asked) - (todo - {n})
         == (if v.None? then NotThere(dst, asked) - todo + {n} else NotThere(dst, asked) - todo)
  {
    var u := OtherUuids(dst, asked);
    if n in u {
      assert Except(u, todo - {n}) == Except(u, todo)[n := u[n]];
    } else {
      assert Except(u, todo - {n}) == Except(u, todo);
    }
    if n in NotThere(dst, asked) {
      assert NotThere(dst, asked) - (todo - {n}) == NotThere(dst, asked) - todo + {n};
    } else {
      assert NotThere(dst, asked) - (todo - {n}) == NotThere(dst, asked) - todo;
    }
  }

  /** The source thread. Its handlers hold the locks they need when they read. */
  class SourceThread {
    var repo: Store
    var outq: seq<Queued>
    var uuidenum: UuidEnumerator?
    var succeeded: bool
    var stopped: bool

    /** The names the enumerator has left. */
    ghost function Rest(): Option<seq<Name>>
      reads this, uuidenum
    {
      if uuidenum == null then None else Some(uuidenum.rest)
    }

    ghost function View(): SrcView
      reads this, uuidenum
    {
      SrcView(outq, Rest(), succeeded, stopped)
    }

    constructor (repo: Store)
      ensures this.repo == repo && outq == [QCtl(BatonRequest)] && uuidenum == null && !succeeded && !stopped
    {
      this.repo, outq, uuidenum, succeeded, stopped := repo, [QCtl(BatonRequest)], null, false, false;
    }

    /** Send every listed object that is not the same here. */
    method HandleSlavelist(uuids: map<Name, Uuid>, nouuids: set<Name>) returns (ghost order: seq<Name>)
      modifies this`outq
      ensures outq == old(outq) + Serializers(order) && Distinct(order)
      ensures forall n :: n in order <==> n in ToSend(repo, uuids, nouuids)
    {
      order := [];
      var objectNames := uuids.Keys + nouuids;
      var todo := objectNames;
      while todo != {}
        invariant todo <= objectNames
        invariant outq == old(outq) + Serializers(order) && Distinct(order)
        invariant forall n :: n in order <==> n in ToSend(repo, uuids, nouuids) && n !in todo
        decreases |todo|
      {
        var n :| n in todo;
        todo := todo - {n};
        var p := Look(repo, n);
        if p.Some? {
          if n in uuids && uuids[n] == p.value.uuid {
            continue;
          }
        } else if n in nouuids {
          continue;
        }
        assert n !in order && n in ToSend(repo, uuids, nouuids);
        outq := outq + [QObj(n)];
        assert Serializers(order + [n]) == Serializers(order) + [QObj(n)];
        order := order + [n];
      }
    }

    /** Handle a slavelist, then answer it with what comes next. */
    method EventSlavelist(uuids: map<Name, Uuid>, nouuids: set<Name>, chunk: nat) returns (ghost order: seq<Name>)
      modifies this`outq, this`uuidenum, uuidenum
      ensures Distinct(order) && forall n :: n in order <==> n in ToSend(repo, uuids, nouuids)
      ensures outq == old(outq) + Serializers(order) + [QCtl(SrcAnswer(repo, old(Rest()), chunk))]
      ensures Rest() == SrcLeft(old(Rest()), chunk)
      ensures uuidenum == null || uuidenum == old(uuidenum)
    {
      order := HandleSlavelist(uuids, nouuids);
      if uuidenum != null {
        var names := uuidenum.Next(chunk);
        if names.None? {
          uuidenum := null;
          outq := outq + [QCtl(MasterListDone)];
        } else {
          var list := NextBatch(repo, names.value);
          outq := outq + [QCtl(MasterList(list))];
        }
      } else {
        outq := outq + [QCtl(MasterAck)];
      }
    }

    /** A matching baton ends the copy; otherwise an empty slavelist starts it. */
    method EventBatonresponse(matches: bool, names: seq<Name>, chunk: nat)
      requires NameSet(names) == repo.Keys
      modifies this
      ensures repo == old(repo)
      ensures matches ==> succeeded && stopped && outq == old(outq) && uuidenum == old(uuidenum)
      ensures !matches ==> succeeded == old(succeeded) && stopped == old(stopped)
      ensures !matches ==> outq == old(outq) + [QCtl(SrcAnswer(repo, Some(names), chunk))]
      ensures !matches ==> Rest() == SrcLeft(Some(names), chunk)
    {
      if matches {
        EventSlavelistdone();
        return;
      }
      uuidenum := new UuidEnumerator(names);
      ghost var order := EventSlavelist(map[], {}, chunk);
      HasMember(order);
    }

    method EventSlavelistready()
      modifies this`outq
      ensures outq == old(outq) + [QCtl(SlaveListStart)]
    {
      outq := outq + [QCtl(SlaveListStart)];
    }

    method EventSlavelistdone()
      modifies this`succeeded, this`stopped
      ensures succeeded && stopped
    {
      succeeded := true;
      stopped := true;
    }

    /** Whichever message comes is handled as the protocol has it. */
    method Event(msg: ToSrc, names: seq<Name>, chunk: nat) returns (ghost order: seq<Name>)
      requires NameSet(names) == repo.Keys
      modifies this, uuidenum
      ensures repo == old(repo)
      ensures View() == SrcHandled(repo, old(View()), msg, order, names, chunk)
      ensures msg.SlaveList? ==> Distinct(order) && forall n :: n in order <==> n in ToSend(repo, msg.uuids, msg.nouuids)
    {
      order := [];
      match msg
      case BatonResponse(matches) =>
        EventBatonresponse(matches, names, chunk);
        assert outq + Serializers([]) == outq && old(outq) + Serializers([]) == old(outq);
      case SlaveList(uuids, nouuids) => order := EventSlavelist(uuids, nouuids, chunk);
      case SlaveListReady => EventSlavelistready();
      case SlaveListDone => EventSlavelistdone();
    }
  }

  /** The destination thread. Objects are installed behind its back by the connection. */
  class DestinationThread {
    var repo: Store
    var back: seq<ToSrc>
    var uuidenum: UuidEnumerator?
    var flag: bool
    var stopped: bool

    ghost function View(): DstView
      reads this, uuidenum
    {
      DstView(back, if uuidenum == null then None else Some(uuidenum.rest), flag, stopped)
    }

    constructor (repo: Store)
      ensures this.repo == repo && back == [] && uuidenum == null && !flag && !stopped
    {
      this.repo, back, uuidenum, flag, stopped := repo, [], null, false, false;
    }

    /** Answer a masterlist: absent objects, and those with another uuid. */
    method EventMasterlist(asked: map<Name, Uuid>)
      modifies this`back
      ensures back == old(back) + [SlaveList(OtherUuids(repo, asked), NotThere(repo, asked))]
    {
      var uuids: map<Name, Uuid> := map[];
      var nouuids: set<Name> := {};
      var todo := asked.Keys;
      while todo != {}
        invariant todo <= asked.Keys
        invariant back == old(back) && uuids == Except(OtherUuids(repo, asked), todo)
        invariant nouuids == NotThere(repo, asked) - todo
        decreases |todo|
      {
        var n :| n in todo;
        LookedUp(repo, asked, todo, n);
        todo := todo - {n};
        var value := Look(repo, n);
        if value.None? {
          nouuids := nouuids + {n};
        } else if asked[n] != value.value.uuid {
          uuids := uuids[n := value.value.uuid];
        }
      }
      assert uuids == OtherUuids(repo, asked) && nouuids == NotThere(repo, asked);
      back := back + [SlaveList(uuids, nouuids)];
    }

    method EventMasterlistdone()
      modifies this`back
      ensures back == old(back) + [SlaveListReady]
    {
      back := back + [SlaveListReady];
    }

    /** The next names of this side, or the end. */
    method EventMasterack(chunk: nat)
      requires uuidenum != null
      modifies this`back, uuidenum
      ensures uuidenum.rest == LaterNames(old(uuidenum.rest), chunk)
      ensures back == old(back) + [DstAnswerTo(repo, old(uuidenum.rest), chunk)]
    {
      var names := uuidenum.Next(chunk);
      if names.None? {
        back := back + [SlaveListDone];
      } else {
        var list := NextBatch(repo, names.value);
        back := back + [SlaveList(list, {})];
      }
    }

    method EventSlaveliststart(names: seq<Name>, chunk: nat)
      requires NameSet(names) == repo.Keys
      modifies this`back, this`uuidenum
      ensures uuidenum != null && uuidenum.rest == LaterNames(names, chunk)
      ensures back == old(back) + [DstAnswerTo(repo, names, chunk)]
    {
      uuidenum := new UuidEnumerator(names);
      EventMasterack(chunk);
    }

    method EventBatonrequest(batonMatches: bool)
      modifies this`back
      ensures back == old(back) + [BatonResponse(batonMatches)]
    {
      back := back + [BatonResponse(batonMatches)];
    }

    /** The copy is complete: whoever waits for it finds the flag set, and the thread stops. */
    method EventCopycomplete()
      modifies this`flag, this`stopped
      ensures flag && stopped
    {
      flag := true;
      stopped := true;
    }

    /** Whichever message comes is handled as the protocol has it; the final one alone sets the flag, and stops the thread. */
    method Event(msg: ToDst, names: seq<Name>, chunk: nat, batonMatches: bool)
      requires NameSet(names) == repo.Keys && (msg.MasterAck? ==> uuidenum != null)
      modifies this, uuidenum
      ensures repo == old(repo)
      ensures View() == DstHandled(repo, old(View()), msg, names, chunk, batonMatches)
      ensures flag <==> old(flag) || msg.CopyComplete?
      ensures stopped <==> old(stopped) || msg.CopyComplete?
    {
      match msg
      case BatonRequest => EventBatonrequest(batonMatches);
      case MasterList(asked) => EventMasterlist(asked);
      case MasterListDone => EventMasterlistdone();
      case SlaveListStart => EventSlaveliststart(names, chunk);
      case MasterAck => EventMasterack(chunk);
      case CopyComplete => EventCopycomplete();
    }
  }

  // ------------------------------------------------------------ the handlers are runs of the protocol

  ghost predicate Sends(k: State, todo: set<Name>, order: seq<Name>)
    requires k.srcThread.Comparing?
  {
    && Distinct(order)
    && forall n :: n in order <==> n in todo && Mismatch(k.srcThread.uuids, k.srcThread.nouuids, n, Look(k.src, n))
  }

  /** The state once the names of order were queued and nothing is left to compare. */
  function Compared(k: State, order: seq<Name>): State
    requires k.srcThread.Comparing?
  {
    k.(srcThread := Comparing(k.srcThread.uuids, k.srcThread.nouuids, {}),
       outq := k.outq + Serializers(order), sent := k.sent + order)
  }

  lemma CompareOneSame(k: State, todo: set<Name>, order: seq<Name>, n: Name)
    requires k.srcThread.Comparing? && k.srcThread.todo == todo && Sends(k, todo, order)
    requires n in todo && n !in order
    ensures var k1 := ApplySrcCompare(k, n);
      k1.srcThread.Comparing? && Sends(k1, todo - {n}, order) && Compared(k1, order) == Compared(k, order)
  {
  }

  lemma CompareOneSent(k: State, todo: set<Name>, order: seq<Name>)
    requires k.srcThread.Comparing? && k.srcThread.todo == todo && Sends(k, todo, order)
    requires order != []
    ensures order[0] in todo
    ensures var k1 := ApplySrcCompare(k, order[0]);
      && k1.srcThread.Comparing? && Sends(k1, todo - {order[0]}, order[1..])
      && Compared(k1, order[1..]) == Compared(k, order)
  {
    var n, rest := order[0], order[1..];
    assert order == [n] + rest && n in order && n !in rest;
    assert Serializers(order) == [QObj(n)] + Serializers(rest);
    assert k.outq + [QObj(n)] + Serializers(rest) == k.outq + Serializers(order);
    assert k.sent + [n] + rest == k.sent + order;
    forall m
      ensures m in order <==> m == n || m in rest
    {
    }
  }

  /** Comparing the names one by one in any order queues what the handler queues. */
  lemma {:induction false} HandlerComparesAll(cfg: Config, k: State, todo: set<Name>, order: seq<Name>)
    returns (acts: seq<Action>, k2: State)
    requires k.srcThread.Comparing? && k.srcThread.todo == todo && Sends(k, todo, order)
    ensures Runs(cfg, k, acts, k2) && k2 == Compared(k, order)
    decreases |todo|
  {
    hide Sends, Compared, ApplySrcCompare;
    if todo == {} {
      NothingCompared(k, order);
      acts, k2 := [], k;
    } else {
      var n: Name;
      var rest := order;
      if order == [] {
        n :| n in todo;
        CompareOneSame(k, todo, order, n);
      } else {
        n, rest := order[0], order[1..];
        CompareOneSent(k, todo, order);
      }
      CompareOneThread(k, n);
      acts, k2 := HandlerComparesAll(cfg, ApplySrcCompare(k, n), todo - {n}, rest);
      Prepend(cfg, k, SrcCompare(n), acts, k2);
      acts := [SrcCompare(n)] + acts;
    }
  }

  lemma NothingCompared(k: State, order: seq<Name>)
    requires k.srcThread.Comparing? && k.srcThread.todo == {} && Sends(k, {}, order)
    ensures Compared(k, order) == k
  {
    HasMember(order);
    assert Serializers(order) == [];
  }

  lemma CompareOneThread(k: State, n: Name)
    requires k.srcThread.Comparing?
    ensures ApplySrcCompare(k, n).srcThread == Comparing(k.srcThread.uuids, k.srcThread.nouuids, k.srcThread.todo - {n})
  {
  }

  /** The state when the names of asked outside todo were looked up. */
  function Asking(k: State, asked: map<Name, Uuid>, todo: set<Name>): State {
    k.(dstThread := Answering(asked, todo, Except(OtherUuids(k.dst, asked), todo), NotThere(k.dst, asked) - todo))
  }

  lemma AnswersOne(cfg: Config, k: State, asked: map<Name, Uuid>, todo: set<Name>, n: Name)
    requires todo <= asked.Keys && n in todo
    ensures Enabled(cfg, Asking(k, asked, todo), DstAnswer(n))
    ensures Apply(cfg, Asking(k, asked, todo), DstAnswer(n)) == Asking(k, asked, todo - {n})
  {
    LookedUp(k.dst, asked, todo, n);
    hide OtherUuids, NotThere, Except;
  }

  lemma AnswersEnd(cfg: Config, k: State, asked: map<Name, Uuid>)
    ensures Enabled(cfg, Asking(k, asked, {}), DstAnswered)
    ensures Apply(cfg, Asking(k, asked, {}), DstAnswered)
         == k.(dstThread := Idle, back := k.back + [SlaveList(OtherUuids(k.dst, asked), NotThere(k.dst, asked))])
  {
    assert Except(OtherUuids(k.dst, asked), {}) == OtherUuids(k.dst, asked);
    assert NotThere(k.dst, asked) - {} == NotThere(k.dst, asked);
  }

  /** Looking the asked names up one by one, with nothing delivered meanwhile, gives the handler's answer. */
  lemma {:induction false} HandlerAnswersAll(cfg: Config, k: State, asked: map<Name, Uuid>, todo: set<Name>)
    returns (acts: seq<Action>, k2: State)
    requires todo <= asked.Keys
    ensures Runs(cfg, Asking(k, asked, todo), acts, k2)
    ensures k2 == k.(dstThread := Idle, back := k.back + [SlaveList(OtherUuids(k.dst, asked), NotThere(k.dst, asked))])
    decreases |todo|
  {
    hide Apply, Enabled, Asking, OtherUuids, NotThere;
    if todo == {} {
      AnswersEnd(cfg, k, asked);
      k2 := Apply(cfg, Asking(k, asked, {}), DstAnswered);
      Prepend(cfg, Asking(k, asked, {}), DstAnswered, [], k2);
      acts := [DstAnswered] + [];
    } else {
      var n :| n in todo;
      AnswersOne(cfg, k, asked, todo, n);
      acts, k2 := HandlerAnswersAll(cfg, k, asked, todo - {n});
      Prepend(cfg, Asking(k, asked, todo), DstAnswer(n), acts, k2);
      acts := [DstAnswer(n)] + acts;
    }
  }

  /** A masterlist taken and answered undisturbed is one handler call. */
  lemma MasterlistHandled(cfg: Config, k: State, asked: map<Name, Uuid>) returns (acts: seq<Action>, k2: State)
    requires k.inbox != [] && k.inbox[0] == MasterList(asked) && k.dstThread.Idle?
    ensures Runs(cfg, k, acts, k2)
    ensures k2 == k.(inbox := k.inbox[1..],
                     back := k.back + [SlaveList(OtherUuids(k.dst, asked), NotThere(k.dst, asked))])
  {
    var k1 := Apply(cfg, k, DstTake);
    assert k1 == Asking(k1, asked, asked.Keys) by {
      assert Except(OtherUuids(k.dst, asked), asked.Keys) == map[];
      assert NotThere(k.dst, asked) - asked.Keys == {};
    }
    acts, k2 := HandlerAnswersAll(cfg, k1, asked, asked.Keys);
    Prepend(cfg, k, DstTake, acts, k2);
    acts := [DstTake] + acts;
  }

  // ------------------------------------------------------------ the source's handlers

  /** Over a directory nobody changes. */
  function WalkOf(rest: Option<seq<Name>>): Option<Walk> {
    if rest.None? then None else Some(Walk(NameSet(rest.value), NameSet(rest.value)))
  }

  /** The next names can be locked at once. */
  ghost predicate NextFree(k: State, rest: Option<seq<Name>>, chunk: nat) {
    rest.Some? ==> forall n :: n in NameSet(NextNames(rest.value, chunk)) ==> n !in k.committing && QObj(n) !in k.outq
  }

  /** What a handler leaves behind that sent msg last and has left names to enumerate. */
  function Answered(k: State, msg: ToDst, left: Option<seq<Name>>): State {
    k.(srcThread := Waiting, srcWalk := WalkOf(left), outq := k.outq + [QCtl(msg)])
  }

  lemma NamesAre(names: seq<Name>)
    ensures NameSet(names) == {} <==> names == []
  {
    if names != [] {
      assert names[0] in NameSet(names);
    }
  }

  /** The source asks its enumerator for the next names, reads them and sends the list. */
  lemma NamesAnswered(cfg: Config, k: State, rest: Option<seq<Name>>) returns (acts: seq<Action>)
    requires k.srcThread.Comparing? && k.srcThread.todo == {} && k.srcWalk == WalkOf(rest)
    requires (rest.Some? ==> Distinct(rest.value)) && NextFree(k, rest, cfg.chunk)
    ensures Runs(cfg, k, acts, Answered(k, SrcAnswer(k.src, rest, cfg.chunk), SrcLeft(rest, cfg.chunk)))
  {
    var k2 := Answered(k, SrcAnswer(k.src, rest, cfg.chunk), SrcLeft(rest, cfg.chunk));
    var batch: set<Name> := {};
    if rest.Some? {
      batch := NameSet(NextNames(rest.value, cfg.chunk));
      NextIsAWalk(rest.value, cfg.chunk);
      NamesAre(NextNames(rest.value, cfg.chunk));
    }
    if batch == {} {
      assert Apply(cfg, k, SrcNext({})) == k2;
      Prepend(cfg, k, SrcNext({}), [], k2);
      acts := [SrcNext({})] + [];
    } else {
      acts := BatchAnswered(cfg, k, rest.value, batch);
    }
  }

  lemma BatchAnswered(cfg: Config, k: State, rest: seq<Name>, batch: set<Name>) returns (acts: seq<Action>)
    requires k.srcThread.Comparing? && k.srcThread.todo == {} && k.srcWalk == WalkOf(Some(rest))
    requires batch == NameSet(NextNames(rest, cfg.chunk)) && batch != {} && NextFree(k, Some(rest), cfg.chunk)
    requires MayYield(k.srcWalk.value, batch, cfg.chunk)
    requires WalkOf(Some(LaterNames(rest, cfg.chunk))) == Some(Yield(k.srcWalk.value, batch))
    ensures Runs(cfg, k, acts, Answered(k, MasterList(UuidsOf(k.src, batch)), Some(LaterNames(rest, cfg.chunk))))
  {
    hide MayYield, NameSet, UuidsOf, Yield;
    var k1 := Apply(cfg, k, SrcNext(batch));
    var k2 := ApplySrcRead(k1);
    var k3 := ApplySrcSend(k2);
    Prepend(cfg, k2, SrcSend, [], k3);
    Prepend(cfg, k1, SrcRead, [SrcSend] + [], k3);
    acts := [SrcRead] + ([SrcSend] + []);
    Prepend(cfg, k, SrcNext(batch), acts, k3);
    acts := [SrcNext(batch)] + acts;
  }

  /** What a slavelist makes of the source: the objects that differ and then the next names. */
  function Listed(cfg: Config, k: State, order: seq<Name>, rest: Option<seq<Name>>): State {
    Answered(k.(outq := k.outq + Serializers(order), sent := k.sent + order),
             SrcAnswer(k.src, rest, cfg.chunk), SrcLeft(rest, cfg.chunk))
  }

  /** The names to send, in the order of the handler's loop, none of which is among the next names. */
  ghost predicate LoopOrder(cfg: Config, k: State, uuids: map<Name, Uuid>, nouuids: set<Name>,
                            order: seq<Name>, rest: Option<seq<Name>>) {
    && Distinct(order)
    && (forall n :: n in order <==> n in ToSend(k.src, uuids, nouuids))
    && (rest.Some? ==> forall n :: n in NextNames(rest.value, cfg.chunk) ==> n !in order)
  }

  lemma ListAnswered(cfg: Config, k: State, order: seq<Name>, rest: Option<seq<Name>>) returns (acts: seq<Action>)
    requires k.srcThread.Locking? && k.srcWalk == WalkOf(rest)
    requires forall n :: n in k.srcThread.uuids.Keys + k.srcThread.nouuids ==> !Held(k, n)
    requires LoopOrder(cfg, k, k.srcThread.uuids, k.srcThread.nouuids, order, rest)
    requires (rest.Some? ==> Distinct(rest.value)) && NextFree(k, rest, cfg.chunk)
    ensures Runs(cfg, k, acts, Listed(cfg, k, order, rest))
  {
    var t := k.srcThread;
    var k1 := Apply(cfg, k, SrcLock);
    var all := t.uuids.Keys + t.nouuids;
    assert Sends(k1, all, order) by {
      hide Mismatch;
    }
    var a1, k2 := HandlerComparesAll(cfg, k1, all, order);
    assert NextFree(k2, rest, cfg.chunk) by {
      SerializersFree(k, order, rest, cfg.chunk);
    }
    hide Sends, LoopOrder, Mismatch, NextFree, Held, WalkOf, SrcAnswer, SrcLeft;
    var a2 := NamesAnswered(cfg, k2, rest);
    assert Answered(k2, SrcAnswer(k2.src, rest, cfg.chunk), SrcLeft(rest, cfg.chunk)) == Listed(cfg, k, order, rest);
    RunsCompose(cfg, k1, a1, k2, a2, Listed(cfg, k, order, rest));
    Prepend(cfg, k, SrcLock, a1 + a2, Listed(cfg, k, order, rest));
    acts := [SrcLock] + (a1 + a2);
  }

  lemma SerializersOf(order: seq<Name>, n: Name)
    ensures QObj(n) in Serializers(order) <==> n in order
  {
    forall i | 0 <= i < |order|
      ensures Serializers(order)[i] == QObj(n) <==> order[i] == n
    {
    }
  }

  lemma SerializersFree(k: State, order: seq<Name>, rest: Option<seq<Name>>, chunk: nat)
    requires NextFree(k, rest, chunk)
    requires rest.Some? ==> forall n :: n in NextNames(rest.value, chunk) ==> n !in order
    ensures NextFree(k.(outq := k.outq + Serializers(order)), rest, chunk)
  {
    forall n
      ensures QObj(n) in Serializers(order) ==> n in order
    {
      SerializersOf(order, n);
    }
  }

  /** A slavelist taken and handled undisturbed, its names and the next ones being free, is one handler call. */
  lemma SlavelistHandled(cfg: Config, k: State, order: seq<Name>, rest: Option<seq<Name>>) returns (acts: seq<Action>)
    requires k.back != [] && k.back[0].SlaveList? && k.srcThread.Waiting? && k.srcWalk == WalkOf(rest)
    requires forall n :: n in k.back[0].uuids.Keys + k.back[0].nouuids ==> !Held(k, n)
    requires LoopOrder(cfg, k, k.back[0].uuids, k.back[0].nouuids, order, rest)
    requires (rest.Some? ==> Distinct(rest.value)) && NextFree(k, rest, cfg.chunk)
    ensures Runs(cfg, k, acts, Listed(cfg, k.(back := k.back[1..]), order, rest))
  {
    hide WalkOf, SrcAnswer, SrcLeft;
    var k1 := Apply(cfg, k, SrcTake);
    var k2 := Listed(cfg, k1, order, rest);
    acts := ListAnswered(cfg, k1, order, rest);
    Prepend(cfg, k, SrcTake, acts, k2);
    acts := [SrcTake] + acts;
  }

  /** So is a baton that does not match: it starts the enumeration and is answered by the first list. */
  lemma BatonRefusalHandled(cfg: Config, k: State, names: seq<Name>) returns (acts: seq<Action>)
    requires k.back != [] && k.back[0] == BatonResponse(false) && k.srcThread.Waiting?
    requires Distinct(names) && NameSet(names) == k.src.Keys && NextFree(k, Some(names), cfg.chunk)
    ensures Runs(cfg, k, acts, Listed(cfg, k.(back := k.back[1..]), [], Some(names)))
  {
    hide SrcAnswer, SrcLeft;
    var k1 := Apply(cfg, k, SrcTake);
    var k2 := Listed(cfg, k1, [], Some(names));
    acts := ListAnswered(cfg, k1, [], Some(names));
    Prepend(cfg, k, SrcTake, acts, k2);
    acts := [SrcTake] + acts;
  }

  /** The replies that take one step: a matching baton, the end of a list or of the copy. */
  lemma ReplyHandled(cfg: Config, k: State) returns (acts: seq<Action>, k2: State)
    requires k.back != [] && !k.back[0].SlaveList? && k.back[0] != BatonResponse(false) && k.srcThread.Waiting?
    ensures Runs(cfg, k, acts, k2)
    ensures k2 == if k.back[0].SlaveListReady? then k.(back := k.back[1..], outq := k.outq + [QCtl(SlaveListStart)])
                  else k.(back := k.back[1..], success := true, srcThread := Stopped)
  {
    k2 := Apply(cfg, k, SrcTake);
    Prepend(cfg, k, SrcTake, [], k2);
    acts := [SrcTake] + [];
  }

  /** The source's part of a state, after a message is taken. */
  function WithSrc(k: State, v: SrcView, order: seq<Name>): State
    requires k.back != []
  {
    k.(back := k.back[1..], outq := v.outq, srcWalk := WalkOf(v.rest), sent := k.sent + order,
       success := v.succeeded, srcThread := if v.stopped then Stopped else Waiting)
  }

  /** The locks that handling the message takes are free. */
  ghost predicate SrcFree(cfg: Config, k: State, msg: ToSrc, rest: Option<seq<Name>>, order: seq<Name>, names: seq<Name>) {
    match msg
    case BatonResponse(matches) =>
      !matches ==> Distinct(names) && NameSet(names) == k.src.Keys && NextFree(k, Some(names), cfg.chunk)
    case SlaveList(uuids, nouuids) =>
      && (forall n :: n in uuids.Keys + nouuids ==> !Held(k, n))
      && LoopOrder(cfg, k, uuids, nouuids, order, rest)
      && (rest.Some? ==> Distinct(rest.value)) && NextFree(k, rest, cfg.chunk)
    case _ => true
  }

  lemma ListedIs(cfg: Config, k: State, order: seq<Name>, rest: Option<seq<Name>>)
    requires k.back != [] && k.srcThread.Waiting?
    ensures Listed(cfg, k.(back := k.back[1..]), order, rest)
         == WithSrc(k, SrcListed(k.src, SrcView(k.outq, rest, k.success, false), order, cfg.chunk), order)
  {
    hide SrcAnswer, SrcLeft, WalkOf, Serializers;
  }

  /** Every message the source takes, handled undisturbed, is a run of the protocol with the outcome of the thread's handler. */
  lemma SourceHandled(cfg: Config, k: State, rest: Option<seq<Name>>, order: seq<Name>, names: seq<Name>)
    returns (acts: seq<Action>)
    requires k.back != [] && k.srcThread.Waiting? && k.srcWalk == WalkOf(rest)
    requires SrcFree(cfg, k, k.back[0], rest, order, names) && (!k.back[0].SlaveList? ==> order == [])
    ensures Runs(cfg, k, acts,
      WithSrc(k, SrcHandled(k.src, SrcView(k.outq, rest, k.success, false), k.back[0], order, names, cfg.chunk), order))
  {
    var v := SrcView(k.outq, rest, k.success, false);
    match k.back[0]
    case SlaveList(_, _) =>
      acts := SlavelistHandled(cfg, k, order, rest);
      ListedIs(cfg, k, order, rest);
    case BatonResponse(false) =>
      acts := BatonRefusalHandled(cfg, k, names);
      ListedIs(cfg, k, [], Some(names));
    case _ =>
      var k2;
      acts, k2 := ReplyHandled(cfg, k);
      assert k.sent + order == k.sent;
  }

  // ------------------------------------------------------------ the destination's handlers

  /** The requests that take one step: for the baton's uuid, and the end of the source's lists. */
  lemma RequestHandled(cfg: Config, k: State) returns (acts: seq<Action>, k2: State)
    requires k.inbox != [] && (k.inbox[0].BatonRequest? || k.inbox[0].MasterListDone?) && k.dstThread.Idle?
    ensures Runs(cfg, k, acts, k2)
    ensures k2 == k.(inbox := k.inbox[1..],
                     back := k.back + [if k.inbox[0].BatonRequest? then BatonResponse(cfg.batonMatches) else SlaveListReady])
  {
    k2 := Apply(cfg, k, DstTake);
    Prepend(cfg, k, DstTake, [], k2);
    acts := [DstTake] + [];
  }

  /** The state when the names of batch outside todo were looked up. */
  function ListingAll(k: State, batch: set<Name>, todo: set<Name>): State {
    k.(dstThread := Listing(todo, UuidsOf(k.dst, batch - todo)))
  }

  lemma ListsOne(cfg: Config, k: State, batch: set<Name>, todo: set<Name>, n: Name)
    requires todo <= batch && n in todo
    ensures Enabled(cfg, ListingAll(k, batch, todo), DstList(n))
    ensures Apply(cfg, ListingAll(k, batch, todo), DstList(n)) == ListingAll(k, batch, todo - {n})
  {
    var u, u2 := UuidsOf(k.dst, batch - todo), UuidsOf(k.dst, batch - (todo - {n}));
    assert u2 == if n in k.dst then u[n := k.dst[n].uuid] else u;
    hide UuidsOf;
  }

  lemma {:induction false} BatchListed(cfg: Config, k: State, batch: set<Name>, todo: set<Name>)
    returns (acts: seq<Action>, k2: State)
    requires todo <= batch
    ensures Runs(cfg, ListingAll(k, batch, todo), acts, k2)
    ensures k2 == k.(dstThread := Idle, back := k.back + [SlaveList(UuidsOf(k.dst, batch), {})])
    decreases |todo|
  {
    hide Apply, Enabled, ListingAll, UuidsOf;
    if todo == {} {
      ListingEnds(cfg, k, batch);
      k2 := Apply(cfg, ListingAll(k, batch, {}), DstListed);
      Prepend(cfg, ListingAll(k, batch, {}), DstListed, [], k2);
      acts := [DstListed] + [];
    } else {
      var n :| n in todo;
      ListsOne(cfg, k, batch, todo, n);
      acts, k2 := BatchListed(cfg, k, batch, todo - {n});
      Prepend(cfg, ListingAll(k, batch, todo), DstList(n), acts, k2);
      acts := [DstList(n)] + acts;
    }
  }

  lemma ListingEnds(cfg: Config, k: State, batch: set<Name>)
    ensures Enabled(cfg, ListingAll(k, batch, {}), DstListed)
    ensures Apply(cfg, ListingAll(k, batch, {}), DstListed)
         == k.(dstThread := Idle, back := k.back + [SlaveList(UuidsOf(k.dst, batch), {})])
  {
    assert batch - {} == batch;
  }

  /** From the moment the destination is asked for its next names. */
  lemma WalkAnswered(cfg: Config, k: State, rest: seq<Name>) returns (acts: seq<Action>, k2: State)
    requires k.dstThread.Walking? && k.dstWalk == WalkOf(Some(rest)) && Distinct(rest)
    ensures Runs(cfg, k, acts, k2)
    ensures k2 == k.(dstThread := Idle, dstWalk := WalkOf(Some(LaterNames(rest, cfg.chunk))),
                     back := k.back + [DstAnswerTo(k.dst, rest, cfg.chunk)])
  {
    var batch := NameSet(NextNames(rest, cfg.chunk));
    NextIsAWalk(rest, cfg.chunk);
    NamesAre(NextNames(rest, cfg.chunk));
    var k1 := Apply(cfg, k, DstNext(batch));
    assert batch - batch == {} && UuidsOf(k.dst, {}) == map[];
    hide NameSet, MayYield, UuidsOf;
    if batch == {} {
      acts, k2 := [], k1;
    } else {
      assert k1 == ListingAll(k1, batch, batch);
      acts, k2 := BatchListed(cfg, k1, batch, batch);
    }
    Prepend(cfg, k, DstNext(batch), acts, k2);
    acts := [DstNext(batch)] + acts;
  }

  lemma MasterackHandled(cfg: Config, k: State, rest: seq<Name>) returns (acts: seq<Action>, k2: State)
    requires k.inbox != [] && k.inbox[0] == MasterAck && k.dstThread.Idle?
    requires k.dstWalk == WalkOf(Some(rest)) && Distinct(rest)
    ensures Runs(cfg, k, acts, k2)
    ensures k2 == k.(inbox := k.inbox[1..], dstWalk := WalkOf(Some(LaterNames(rest, cfg.chunk))),
                     back := k.back + [DstAnswerTo(k.dst, rest, cfg.chunk)])
  {
    var k1 := Apply(cfg, k, DstTake);
    hide WalkOf, DstAnswerTo;
    acts, k2 := WalkAnswered(cfg, k1, rest);
    Prepend(cfg, k, DstTake, acts, k2);
    acts := [DstTake] + acts;
  }

  lemma SlaveliststartHandled(cfg: Config, k: State, names: seq<Name>) returns (acts: seq<Action>, k2: State)
    requires k.inbox != [] && k.inbox[0] == SlaveListStart && k.dstThread.Idle?
    requires Distinct(names) && NameSet(names) == k.dst.Keys
    ensures Runs(cfg, k, acts, k2)
    ensures k2 == k.(inbox := k.inbox[1..], dstWalk := WalkOf(Some(LaterNames(names, cfg.chunk))),
                     back := k.back + [DstAnswerTo(k.dst, names, cfg.chunk)])
  {
    var k1 := Apply(cfg, k, DstTake);
    hide DstAnswerTo;
    acts, k2 := WalkAnswered(cfg, k1, names);
    Prepend(cfg, k, DstTake, acts, k2);
    acts := [DstTake] + acts;
  }

  /** The destination's part of a state. */
  function DstPart(k: State, rest: Option<seq<Name>>): DstView {
    DstView(k.back, rest, k.done, k.done)
  }

  function WithDst(k: State, v: DstView): State {
    k.(back := v.back, dstWalk := WalkOf(v.rest), done := v.flag)
  }

  /** Every message that waits for the destination, handled undisturbed, is a run of the protocol with the outcome of the thread's handler. */
  lemma DestinationHandled(cfg: Config, k: State, rest: Option<seq<Name>>, names: seq<Name>)
    returns (acts: seq<Action>)
    requires k.inbox != [] && !k.inbox[0].CopyComplete? && k.dstThread.Idle? && k.dstWalk == WalkOf(rest)
    requires k.inbox[0].SlaveListStart? ==> Distinct(names) && NameSet(names) == k.dst.Keys
    requires k.inbox[0].MasterAck? ==> rest.Some? && Distinct(rest.value)
    ensures Runs(cfg, k, acts,
      WithDst(k.(inbox := k.inbox[1..]),
              DstHandled(k.dst, DstPart(k, rest), k.inbox[0], names, cfg.chunk, cfg.batonMatches)))
  {
    hide WalkOf, DstAnswerTo, OtherUuids, NotThere;
    var k2;
    match k.inbox[0]
    case MasterList(asked) => acts, k2 := MasterlistHandled(cfg, k, asked);
    case SlaveListStart => acts, k2 := SlaveliststartHandled(cfg, k, names);
    case MasterAck => acts, k2 := MasterackHandled(cfg, k, rest.value);
    case _ => acts, k2 := RequestHandled(cfg, k);
  }

  /** The final message does not wait: its delivery is its handling, and the handler sets the flag. */
  lemma CompletionHandled(cfg: Config, k: State, rest: Option<seq<Name>>, names: seq<Name>)
    requires k.wire != [] && k.wire[0] == WCtl(CopyComplete) && k.dstWalk == WalkOf(rest)
    ensures var v := DstHandled(k.dst, DstPart(k, rest), CopyComplete, names, cfg.chunk, cfg.batonMatches);
      v.flag && v.stopped && Runs(cfg, k, [Deliver], WithDst(k.(wire := k.wire[1..]), v))
  {
    hide WalkOf;
    var k2 := Apply(cfg, k, Deliver);
    Prepend(cfg, k, Deliver, [], k2);
    assert [Deliver] + [] == [Deliver];
  }

  predicate IsSrcStep(a: Action) {
    a.SrcStart? || a.SrcLock? || a.SrcCompare? || a.SrcNext? || a.SrcRead? || a.SrcSend? || a.SrcAbort?
  }

  lemma DstCompletesNothing(cfg: Config, k: State, a: Action)
    requires Enabled(cfg, k, a) && IsDstStep(a)
    ensures var k2 := Apply(cfg, k, a); k2.done == k.done && k2.success == k.success && k2.released == k.released
  {
    hide MayYield, Look, AnswerOne, ListOne, DstReplies, DstTurnsTo, StartWalk, Yield;
  }

  lemma SrcCompletesNothing(cfg: Config, k: State, a: Action)
    requires Enabled(cfg, k, a) && IsSrcStep(a)
    ensures var k2 := Apply(cfg, k, a); k2.done == k.done && k2.success == k.success && k2.released == k.released
  {
    hide MayYield, Held, Look, UuidsOf, ApplySrcCompare, ApplySrcNext, Tell;
    match a
    case SrcCompare(n) => CompareCompletesNothing(k, n);
    case SrcNext(batch) => NextCompletesNothing(k, batch);
    case _ =>
  }

  lemma CompareCompletesNothing(k: State, n: Name)
    requires k.srcThread.Comparing?
    ensures var k2 := ApplySrcCompare(k, n); k2.done == k.done && k2.success == k.success && k2.released == k.released
  {
    hide Mismatch, Look;
  }

  lemma NextCompletesNothing(k: State, batch: set<Name>)
    ensures var k2 := ApplySrcNext(k, batch); k2.done == k.done && k2.success == k.success && k2.released == k.released
  {
    hide Tell, Yield;
  }

  lemma OthersComplete(cfg: Config, k: State, a: Action)
    requires Enabled(cfg, k, a) && !IsDstStep(a) && !IsSrcStep(a)
    ensures Apply(cfg, k, a).done <==> k.done || (a.Deliver? && k.wire[0] == WCtl(CopyComplete))
    ensures Apply(cfg, k, a).success != k.success ==> a == SrcTake
    ensures Apply(cfg, k, a).released != k.released ==> a == Release
  {
    hide MayYield, Held, Look, Put, Observe, UuidsOf, SrcTurnsTo, StartWalk, Tell;
  }

  /** No other step makes a copy complete. */
  lemma OnlyDeliveryCompletes(cfg: Config, k: State, a: Action)
    requires Enabled(cfg, k, a)
    ensures Apply(cfg, k, a).done <==> k.done || (a.Deliver? && k.wire[0] == WCtl(CopyComplete))
    ensures Apply(cfg, k, a).success != k.success ==> a == SrcTake
    ensures Apply(cfg, k, a).released != k.released ==> a == Release
  {
    hide Apply;
    if IsDstStep(a) {
      DstCompletesNothing(cfg, k, a);
    } else if IsSrcStep(a) {
      SrcCompletesNothing(cfg, k, a);
    } else {
      OthersComplete(cfg, k, a);
    }
  }

  /**
   The step by which a copy becomes complete is the destination's handling of
   the final message, which sets the thread's flag; and if the copy succeeded
   the destination then holds exactly what was released.
   */
  lemma FlagMeansIdentical(cfg: Config, s0: Store, d0: Store, acts: seq<Action>, k: State, a: Action,
                           rest: Option<seq<Name>>, names: seq<Name>)
    requires cfg.chunk >= 1 && Reaches(cfg, s0, d0, acts, k) && Enabled(cfg, k, a) && k.dstWalk == WalkOf(rest)
    requires !k.done && Apply(cfg, k, a).done
    ensures k.wire != [] && k.wire[0] == WCtl(CopyComplete)
    ensures var v := DstHandled(k.dst, DstPart(k, rest), CopyComplete, names, cfg.chunk, cfg.batonMatches);
      v.flag && Apply(cfg, k, a) == WithDst(k.(wire := k.wire[1..]), v)
    ensures k.success ==> k.released == Some(Apply(cfg, k, a).dst)
  {
    OnlyDeliveryCompletes(cfg, k, a);
    var k2 := Apply(cfg, k, a);
    CompletionIs(cfg, k, rest, names);
    hide Apply, Enabled, DstHandled, DstPart, WithDst, WalkOf;
    CompletionReached(cfg, s0, d0, acts, k, a);
    if k.success {
      CompletedCopyIsIdentical(cfg, s0, d0, acts + [a], k2);
    }
  }

  lemma CompletionIs(cfg: Config, k: State, rest: Option<seq<Name>>, names: seq<Name>)
    requires k.wire != [] && k.wire[0] == WCtl(CopyComplete) && k.dstWalk == WalkOf(rest)
    ensures var v := DstHandled(k.dst, DstPart(k, rest), CopyComplete, names, cfg.chunk, cfg.batonMatches);
      v.flag && Apply(cfg, k, Deliver) == WithDst(k.(wire := k.wire[1..]), v)
  {
    hide WalkOf;
  }

  lemma CompletionReached(cfg: Config, s0: Store, d0: Store, acts: seq<Action>, k: State, a: Action)
    requires Reaches(cfg, s0, d0, acts, k) && Enabled(cfg, k, a)
    ensures Reaches(cfg, s0, d0, acts + [a], Apply(cfg, k, a))
  {
    hide Apply, Enabled;
    assert Runs(cfg, Apply(cfg, k, a), [], Apply(cfg, k, a));
    assert [a][1..] == [];
    RunsCompose(cfg, Init(s0, d0), acts, k, [a], Apply(cfg, k, a));
  }
}
