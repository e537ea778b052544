/** Order over whole runs of the master: mutexes are granted in the order in which they are asked
    for, conditions wake in the order of the waits, and barriers answer whole batches of arrivals. */
module McpOrder {
  import opened Options
  import opened SyncObjects
  import opened Threads
  import opened MasterControl
  import opened McpInvariant
  import opened McpThreads
  import opened McpClients
  import opened McpRuns

  // ----- operations on all mutexes -----

  /** An operation on the mutex `m`. */
  datatype Op = Op(m: nat, op: MutexOp)

  datatype Grant = Grant(m: nat, core: Core)

  ghost function AfterOne(ms: seq<Mutex>, o: Op): seq<Mutex> {
    if o.m < |ms| then ms[o.m := AfterOp(ms[o.m], o.op)] else ms
  }

  ghost function AfterOps(ms: seq<Mutex>, ops: seq<Op>): seq<Mutex>
    decreases |ops|
  {
    if ops == [] then ms else AfterOps(AfterOne(ms, ops[0]), ops[1..])
  }

  ghost function GrantsOne(ms: seq<Mutex>, o: Op): seq<Grant> {
    if o.m < |ms| && GrantOf(ms[o.m], o.op) != [] then [Grant(o.m, GrantOf(ms[o.m], o.op)[0])] else []
  }

  /** Who becomes owner of what, in that order. */
  ghost function GrantsBy(ms: seq<Mutex>, ops: seq<Op>): seq<Grant>
    decreases |ops|
  {
    if ops == [] then [] else GrantsOne(ms, ops[0]) + GrantsBy(AfterOne(ms, ops[0]), ops[1..])
  }

  /** The operations on one mutex. */
  ghost function On(ops: seq<Op>, m: nat): seq<MutexOp> {
    if ops == [] then [] else (if ops[0].m == m then [ops[0].op] else []) + On(ops[1..], m)
  }

  /** The cores that become owner of one mutex. */
  ghost function GrantedOn(gs: seq<Grant>, m: nat): seq<Core> {
    if gs == [] then [] else (if gs[0].m == m then [gs[0].core] else []) + GrantedOn(gs[1..], m)
  }

  lemma {:induction false} OnConcat(a: seq<Op>, b: seq<Op>, m: nat)
    ensures On(a + b, m) == On(a, m) + On(b, m)
  {
    if a == [] {
      assert a + b == b;
    } else {
      assert (a + b)[1..] == a[1..] + b;
      OnConcat(a[1..], b, m);
    }
  }

  lemma {:induction false} GrantedOnConcat(a: seq<Grant>, b: seq<Grant>, m: nat)
    ensures GrantedOn(a + b, m) == GrantedOn(a, m) + GrantedOn(b, m)
  {
    if a == [] {
      assert a + b == b;
    } else {
      assert (a + b)[1..] == a[1..] + b;
      GrantedOnConcat(a[1..], b, m);
    }
  }

  /** What a mutex goes through is its own operations, and its grants are its own. */
  lemma {:induction false} OneMutexOnly(ms: seq<Mutex>, ops: seq<Op>, m: nat)
    ensures |AfterOps(ms, ops)| == |ms|
    ensures m < |ms| ==> AfterOps(ms, ops)[m] == AfterMutex(ms[m], On(ops, m))
    ensures GrantedOn(GrantsBy(ms, ops), m) == if m < |ms| then Grants(ms[m], On(ops, m)) else []
    decreases |ops|
  {
    if ops != [] {
      var o := ops[0];
      OneMutexOnly(AfterOne(ms, o), ops[1..], m);
      OneStep(ms, o, m);
      GrantedOnConcat(GrantsOne(ms, o), GrantsBy(AfterOne(ms, o), ops[1..]), m);
      hide AfterOp, GrantOf, GrantsOne, AfterOne, GrantedOn;
      if o.m == m {
        assert ([o.op] + On(ops[1..], m))[1..] == On(ops[1..], m);
      } else {
        assert [] + On(ops[1..], m) == On(ops[1..], m);
        assert [] + GrantedOn(GrantsBy(AfterOne(ms, o), ops[1..]), m) ==
          GrantedOn(GrantsBy(AfterOne(ms, o), ops[1..]), m);
      }
    }
  }

  lemma {:induction false} OneStep(ms: seq<Mutex>, o: Op, m: nat)
    ensures |AfterOne(ms, o)| == |ms|
    ensures m < |ms| ==> AfterOne(ms, o)[m] == if o.m == m then AfterOp(ms[m], o.op) else ms[m]
    ensures GrantedOn(GrantsOne(ms, o), m) == if o.m == m && m < |ms| then GrantOf(ms[m], o.op) else []
  {
    var g := GrantsOne(ms, o);
    if o.m < |ms| {
      assert |GrantOf(ms[o.m], o.op)| <= 1;
    }
    assert |g| <= 1 && (g != [] ==> g[1..] == []);
  }

  // ----- what a request does to the mutexes -----

  ghost function LocksOf(ws: seq<CondWaiter>): seq<Op> {
    seq(|ws|, i requires 0 <= i < |ws| => Op(ws[i].mutex, Locks(ws[i].core)))
  }

  /** A wait releases its mutex; a waiter that is woken asks for the mutex recorded for it. */
  ghost function OpsOf(s: Server, r: Request): seq<Op> {
    match r
    case MutexLock(c, m, _) => [Op(m, Locks(c))]
    case MutexUnlock(_, m, _) => [Op(m, Unlocks)]
    case CondWait(_, _, m, _) => [Op(m, Unlocks)]
    case CondSignal(_, v, _) => if v < |s.conds| && s.conds[v] != [] then LocksOf(s.conds[v][..1]) else []
    case CondBroadcast(_, v, _) => if v < |s.conds| then LocksOf(s.conds[v]) else []
    case _ => []
  }

  /** The cores that are told that they own a mutex. */
  ghost function ToldOwners(rs: seq<Reply>): seq<Core> {
    if rs == [] then []
    else
      (if rs[0].body.Code? && rs[0].body.code == MUTEX_LOCK_RESPONSE then [rs[0].core] else []) + ToldOwners(rs[1..])
  }

  lemma {:induction false} ToldConcat(a: seq<Reply>, b: seq<Reply>)
    ensures ToldOwners(a + b) == ToldOwners(a) + ToldOwners(b)
  {
    if a == [] {
      assert a + b == b;
    } else {
      assert (a + b)[1..] == a[1..] + b;
      ToldConcat(a[1..], b);
    }
  }

  lemma {:induction false} ToldAll(cs: seq<Core>, time: nat)
    ensures ToldOwners(GrantedAll(cs, time)) == cs
  {
    if cs != [] {
      assert GrantedAll(cs, time)[1..] == GrantedAll(cs[1..], time);
      ToldAll(cs[1..], time);
    }
  }

  ghost function Owners(gs: seq<Grant>): seq<Core> {
    seq(|gs|, i requires 0 <= i < |gs| => gs[i].core)
  }

  /** A broadcast makes its waiters ask one after another. */
  lemma {:induction false} AwakenOps(s: Server, ws: seq<CondWaiter>)
    requires forall i :: 0 <= i < |ws| ==> ws[i].mutex < |s.mutexes|
    ensures var (t, woken) := Awaken(s, ws);
      && t.mutexes == AfterOps(s.mutexes, LocksOf(ws)) && woken == Owners(GrantsBy(s.mutexes, LocksOf(ws)))
      && t.conds == s.conds && t.barriers == s.barriers
    decreases |ws|
  {
    hide ResumeThread, LockMutex, AfterOps, GrantsBy, Owners, LocksOf;
    if ws == [] {
      FirstLock(ws);
      NoOps(s.mutexes);
    } else {
      var w := ws[0];
      var s1 := ResumeThread(s, w.core);
      ResumeFrame(s, w.core);
      LockFrame(s1, w.mutex, w.core);
      LockOwns(s1, w.mutex, w.core);
      FirstLock(ws);
      FirstOp(s.mutexes, LocksOf(ws));
      LockGrants(s.mutexes[w.mutex], w.core);
      AwakenOps(LockMutex(s1, w.mutex, w.core).0, ws[1..]);
    }
  }

  lemma {:induction false} FirstLock(ws: seq<CondWaiter>)
    ensures ws == [] ==> LocksOf(ws) == []
    ensures ws != [] ==>
      LocksOf(ws) != [] && LocksOf(ws)[0] == Op(ws[0].mutex, Locks(ws[0].core)) && LocksOf(ws)[1..] == LocksOf(ws[1..])
  {
  }

  lemma {:induction false} FirstOp(ms: seq<Mutex>, ops: seq<Op>)
    requires ops != [] && ops[0].m < |ms|
    ensures AfterOps(ms, ops) == AfterOps(ms[ops[0].m := AfterOp(ms[ops[0].m], ops[0].op)], ops[1..])
    ensures Owners(GrantsBy(ms, ops)) ==
      GrantOf(ms[ops[0].m], ops[0].op) + Owners(GrantsBy(ms[ops[0].m := AfterOp(ms[ops[0].m], ops[0].op)], ops[1..]))
  {
    assert |GrantOf(ms[ops[0].m], ops[0].op)| <= 1;
  }

  lemma {:induction false} LockGrants(x: Mutex, c: Core)
    ensures AfterOp(x, Locks(c)) == Lock(x, c) && GrantOf(x, Locks(c)) == if x.owner.None? then [c] else []
  {
  }

  lemma {:induction false} NoOps(ms: seq<Mutex>)
    ensures AfterOps(ms, []) == ms && Owners(GrantsBy(ms, [])) == []
  {
  }

  // ----- the objects after a request -----

  ghost function MutexesAfter(s: Server, r: Request): seq<Mutex> {
    AfterOps(s.mutexes, OpsOf(s, r)) + if r.MutexInit? then [Mutex(None, [])] else []
  }

  ghost function CondsAfter(s: Server, r: Request): seq<seq<CondWaiter>> {
    match r
    case CondInit(_) => s.conds + [[]]
    case CondWait(c, v, m, time) =>
      if v < |s.conds| then s.conds[v := s.conds[v] + [CondWaiter(c, m, time)]] else s.conds
    case CondSignal(_, v, _) => if v < |s.conds| && s.conds[v] != [] then s.conds[v := Erased(s.conds[v])] else s.conds
    case CondBroadcast(_, v, _) => if v < |s.conds| then s.conds[v := []] else s.conds
    case _ => s.conds
  }

  ghost function BarriersAfter(s: Server, r: Request): seq<Barrier> {
    match r
    case BarrierInit(_, n) => s.barriers + [Barrier(n, [], 0)]
    case BarrierWait(c, b, time) =>
      if b < |s.barriers| then s.barriers[b := Arrive(s.barriers[b], c, time).0] else s.barriers
    case _ => s.barriers
  }

  /** What a request leaves of the objects, and whom it tells that it owns a mutex. */
  ghost predicate Lawful(s: Server, r: Request, t: Server, rs: seq<Reply>) {
    && t.mutexes == MutexesAfter(s, r) && t.conds == CondsAfter(s, r) && t.barriers == BarriersAfter(s, r)
    && ToldOwners(rs) == Owners(GrantsBy(s.mutexes, OpsOf(s, r)))
  }

  lemma {:induction false} OneOp(ms: seq<Mutex>, o: Op)
    requires o.m < |ms|
    ensures AfterOps(ms, [o]) == ms[o.m := AfterOp(ms[o.m], o.op)]
    ensures Owners(GrantsBy(ms, [o])) == GrantOf(ms[o.m], o.op)
  {
    assert |GrantOf(ms[o.m], o.op)| <= 1;
    assert [o][1..] == [];
    assert AfterOps(AfterOne(ms, o), []) == AfterOne(ms, o);
    assert GrantsBy(AfterOne(ms, o), []) == [];
    assert GrantsOne(ms, o) + [] == GrantsOne(ms, o);
  }

  lemma {:induction false} LockLawful(s: Server, c: Core, m: nat, time: nat)
    requires m < |s.mutexes|
    ensures var (t, rs) := DoLock(s, c, m, time); Lawful(s, MutexLock(c, m, time), t, rs)
  {
    hide LockMutex;
    LockFrame(s, m, c);
    LockOwns(s, m, c);
    OneOp(s.mutexes, Op(m, Locks(c)));
    hide AfterOps, GrantsBy;
    ToldAll([c], time);
    assert [Granted(c, time)] == GrantedAll([c], time);
    var ops := OpsOf(s, MutexLock(c, m, time));
    assert AfterOps(s.mutexes, ops) + [] == AfterOps(s.mutexes, ops);
  }

  /** The next owner, if there is one, is told. */
  lemma {:induction false} PassLawful(s: Server, m: nat, c: Core, time: nat)
    requires m < |s.mutexes| && s.mutexes[m].owner == Some(c)
    ensures var (t, next) := UnlockMutex(s, m, c);
      && t.mutexes == AfterOps(s.mutexes, [Op(m, Unlocks)]) && t.conds == s.conds && t.barriers == s.barriers
      && ToldOwners(GrantedIf(next, time)) == Owners(GrantsBy(s.mutexes, [Op(m, Unlocks)]))
  {
    hide UnlockMutex;
    UnlockFrame(s, m, c);
    OneOp(s.mutexes, Op(m, Unlocks));
    hide AfterOps, GrantsBy;
    var next := UnlockMutex(s, m, c).1;
    assert GrantedIf(next, time) == [] || GrantedIf(next, time)[1..] == [];
  }

  lemma {:induction false} ToldNot(r: Reply)
    requires !(r.body.Code? && r.body.code == MUTEX_LOCK_RESPONSE)
    ensures ToldOwners([r]) == []
  {
    assert [r][1..] == [];
  }

  lemma {:induction false} UnlockLawful(s: Server, c: Core, m: nat, time: nat)
    requires m < |s.mutexes| && s.mutexes[m].owner == Some(c)
    ensures var (t, rs) := DoUnlock(s, c, m, time); Lawful(s, MutexUnlock(c, m, time), t, rs)
  {
    hide UnlockMutex, AfterOps, GrantsBy, ToldOwners;
    PassLawful(s, m, c, time);
    var ack := Reply(c, Code(MUTEX_UNLOCK_RESPONSE, 0));
    ToldConcat(GrantedIf(UnlockMutex(s, m, c).1, time), [ack]);
    ToldNot(ack);
  }

  lemma {:induction false} WaitLawful(s: Server, c: Core, v: nat, m: nat, time: nat)
    requires v < |s.conds| && m < |s.mutexes| && s.mutexes[m].owner == Some(c)
    ensures var (t, rs) := DoCondWait(s, c, v, m, time); Lawful(s, CondWait(c, v, m, time), t, rs)
  {
    hide UnlockMutex, AfterOps, GrantsBy, ToldOwners, StallThread;
    StallFrame(s, c);
    PassLawful(SetCond(StallThread(s, c), v, s.conds[v] + [CondWaiter(c, m, time)]), m, c, time);
  }

  lemma {:induction false} SignalLawful(s: Server, c: Core, v: nat, time: nat)
    requires v < |s.conds| && (s.conds[v] != [] ==> s.conds[v][0].mutex < |s.mutexes|)
    ensures var (t, rs) := DoSignal(s, c, v, time); Lawful(s, CondSignal(c, v, time), t, rs)
  {
    hide LockMutex, ResumeThread, Erased, AfterOps, GrantsBy, ToldOwners;
    var ack := Reply(c, Code(COND_SIGNAL_RESPONSE, 0));
    ToldNot(ack);
    NoOps(s.mutexes);
    if s.conds[v] != [] {
      var w, s1 := s.conds[v][0], SetCond(s, v, Erased(s.conds[v]));
      var s2 := ResumeThread(s1, w.core);
      ResumeFrame(s1, w.core);
      LockLawful(s2, w.core, w.mutex, time);
      LockFrame(s2, w.mutex, w.core);
      assert OpsOf(s, CondSignal(c, v, time)) == [Op(w.mutex, Locks(w.core))];
      ToldConcat(DoLock(s2, w.core, w.mutex, time).1, [ack]);
    }
  }

  lemma {:induction false} BroadcastLawful(s: Server, c: Core, v: nat, time: nat)
    requires v < |s.conds| && forall i :: 0 <= i < |s.conds[v]| ==> s.conds[v][i].mutex < |s.mutexes|
    ensures var (t, rs) := DoBroadcast(s, c, v, time); Lawful(s, CondBroadcast(c, v, time), t, rs)
  {
    hide Awaken, AfterOps, GrantsBy, ToldOwners, GrantedAll;
    AwakenOps(SetCond(s, v, []), s.conds[v]);
    var woken := Awaken(SetCond(s, v, []), s.conds[v]).1;
    var ack := Reply(c, Code(COND_BROADCAST_RESPONSE, 0));
    ToldConcat(GrantedAll(woken, time), [ack]);
    ToldAll(woken, time);
    ToldNot(ack);
  }

  lemma {:induction false} ToldNone(rs: seq<Reply>)
    requires forall i :: 0 <= i < |rs| ==> !(rs[i].body.Code? && rs[i].body.code == MUTEX_LOCK_RESPONSE)
    ensures ToldOwners(rs) == []
  {
    if rs != [] {
      ToldNone(rs[1..]);
    }
  }

  /** Requests that concern no mutex tell nobody that it owns one. */
  lemma {:induction false} OthersTellNone(s: Server, r: Request)
    requires !r.MutexLock? && !r.MutexUnlock? && !r.CondWait? && !r.CondSignal? && !r.CondBroadcast?
    ensures ToldOwners(Handle(s, r).1) == [] && OpsOf(s, r) == []
  {
    hide Handle;
    var rs := Handle(s, r).1;
    forall i | 0 <= i < |rs|
      ensures !(rs[i].body.Code? && rs[i].body.code == MUTEX_LOCK_RESPONSE)
    {
      if rs[i].body.Code? && rs[i].body.code == MUTEX_LOCK_RESPONSE {
        GrantsCarryTime(s, r, i);
      }
    }
    ToldNone(rs);
  }

  lemma {:induction false} InitLawful(s: Server, r: Request)
    requires r.MutexInit? || r.CondInit? || r.BarrierInit?
    ensures var (t, rs) := Handle(s, r); Lawful(s, r, t, rs)
  {
    hide DoLock, DoUnlock, DoCondWait, DoSignal, DoBroadcast, DoBarrierWait, DoFutexWait, DoFutexWake, DoWakeOp;
    hide DoCmpRequeue, DoSpawn, DoStart, DoExit, DoJoin;
    OthersTellNone(s, r);
    NoOps(s.mutexes);
  }

  lemma {:induction false} BarrierLawful(s: Server, c: Core, b: nat, time: nat)
    requires b < |s.barriers| && |s.barriers[b].waiting| < s.barriers[b].count
    ensures var (t, rs) := DoBarrierWait(s, c, b, time); Lawful(s, BarrierWait(c, b, time), t, rs)
  {
    hide DoBarrierWait, AfterOps, GrantsBy, ToldOwners;
    var r := BarrierWait(c, b, time);
    assert Handle(s, r) == DoBarrierWait(s, c, b, time);
    BarrierFrame(s, c, b, time);
    OthersTellNone(s, r);
    NoOps(s.mutexes);
  }

  /** Every accepted request is lawful. */
  lemma {:induction false} SyncLawful(s: Server, at: map<Core, Place>, r: Request)
    requires Inv(s, at) && Accepted(s, r) && !OfThreads(r) && !OfFutexes(r)
    ensures var (t, rs) := Handle(s, r); Lawful(s, r, t, rs)
  {
    hide Lawful, ThreadsOk, DoLock, DoUnlock, DoCondWait, DoSignal, DoBroadcast, DoBarrierWait;
    match r {
      case MutexLock(c, m, time) => LockLawful(s, c, m, time);
      case MutexUnlock(c, m, time) => UnlockLawful(s, c, m, time);
      case CondWait(c, v, m, time) => WaitLawful(s, c, v, m, time);
      case CondSignal(c, v, time) => SignalLawful(s, c, v, time);
      case CondBroadcast(c, v, time) => BroadcastLawful(s, c, v, time);
      case BarrierWait(c, b, time) => BarrierLawful(s, c, b, time);
      case _ => InitLawful(s, r);
    }
  }

  lemma {:induction false} StepLawful(s: Server, at: map<Core, Place>, r: Request)
    requires Inv(s, at) && Allowed(s, Message(r)) && Accepted(s, r)
    ensures var (t, rs) := Handle(s, r); Lawful(s, r, t, rs)
  {
    hide Inv, Handle, Accepted, Front, LineOf, AfterOps, GrantsBy;
    if !OfThreads(r) && !OfFutexes(r) {
      hide Lawful;
      SyncLawful(s, at, r);
    } else {
      OthersTellNone(s, r);
      NoOps(s.mutexes);
      if OfThreads(r) {
        ThreadIds(s, at, r);
      } else {
        FutexIds(s, r);
      }
    }
  }

  // ----- runs -----

  ghost function EventOps(s: Server, e: Event): seq<Op> {
    if e.Message? then OpsOf(s, e.r) else []
  }

  ghost function EventReplies(s: Server, e: Event): seq<Reply> {
    if e.Message? then Handle(s, e.r).1 else []
  }

  /** All operations of a run on mutexes, in order. */
  ghost function RunOps(s: Server, es: seq<Event>): seq<Op>
    decreases |es|
  {
    if es == [] then [] else EventOps(s, es[0]) + RunOps(NextServer(s, es[0]), es[1..])
  }

  /** All replies that the master sends in a run, in order. */
  ghost function RunReplies(s: Server, es: seq<Event>): seq<Reply>
    decreases |es|
  {
    if es == [] then [] else EventReplies(s, es[0]) + RunReplies(NextServer(s, es[0]), es[1..])
  }

  /** Who becomes owner of what in a run, in that order. */
  ghost function RunGrants(s: Server, es: seq<Event>): seq<Grant>
    decreases |es|
  {
    if es == [] then [] else GrantsBy(s.mutexes, EventOps(s, es[0])) + RunGrants(NextServer(s, es[0]), es[1..])
  }

  ghost function MutexAt(s: Server, m: nat): Mutex {
    if m < |s.mutexes| then s.mutexes[m] else Mutex(None, [])
  }

  lemma {:induction false} AfterConcat(x: Mutex, a: seq<MutexOp>, b: seq<MutexOp>)
    ensures AfterMutex(x, a + b) == AfterMutex(AfterMutex(x, a), b)
    ensures Grants(x, a + b) == Grants(x, a) + Grants(AfterMutex(x, a), b)
    decreases |a|
  {
    hide AfterOp, GrantOf;
    if a == [] {
      assert a + b == b;
    } else {
      assert (a + b)[1..] == a[1..] + b;
      AfterConcat(AfterOp(x, a[0]), a[1..], b);
    }
  }

  /** One event: a mutex goes through its own operations. */
  lemma {:induction false} EventOnMutex(s: Server, at: map<Core, Place>, e: Event, m: nat)
    requires Inv(s, at) && Allowed(s, e) && (e.Message? ==> Accepted(s, e.r))
    ensures MutexAt(NextServer(s, e), m) == AfterMutex(MutexAt(s, m), On(EventOps(s, e), m))
    ensures GrantedOn(GrantsBy(s.mutexes, EventOps(s, e)), m) == Grants(MutexAt(s, m), On(EventOps(s, e), m))
    ensures ToldOwners(EventReplies(s, e)) == Owners(GrantsBy(s.mutexes, EventOps(s, e)))
  {
    hide Inv, Allowed, Accepted, Handle, AfterMutex, AfterOps, GrantsBy, Grants, ToldOwners,
      GrantedOn, Owners, OpsOf, On;
    hide CondsAfter, BarriersAfter;
    var ops := EventOps(s, e);
    OneMutexOnly(s.mutexes, ops, m);
    NoOps(s.mutexes);
    NothingToDo(MutexAt(s, m), m);
    if e.Message? {
      StepLawful(s, at, e.r);
      if m >= |s.mutexes| {
        InRange(s, at, e.r, m);
      }
    }
  }

  lemma {:induction false} NothingToDo(x: Mutex, m: nat)
    ensures AfterMutex(x, []) == x && Grants(x, []) == [] && On([], m) == [] && ToldOwners([]) == []
  {
  }

  /** Operations are on mutexes that exist. */
  lemma {:induction false} InRange(s: Server, at: map<Core, Place>, r: Request, m: nat)
    requires Inv(s, at) && Accepted(s, r) && m >= |s.mutexes|
    ensures On(OpsOf(s, r), m) == []
  {
    hide ThreadsOk;
    var ops := OpsOf(s, r);
    forall i | 0 <= i < |ops|
      ensures ops[i].m < |s.mutexes|
    {
    }
    OffAll(ops, m, |s.mutexes|);
  }

  lemma {:induction false} OffAll(ops: seq<Op>, m: nat, n: nat)
    requires m >= n && forall i :: 0 <= i < |ops| ==> ops[i].m < n
    ensures On(ops, m) == []
  {
    if ops != [] {
      OffAll(ops[1..], m, n);
    }
  }

  lemma {:induction false} OwnersConcat(a: seq<Grant>, b: seq<Grant>)
    ensures Owners(a + b) == Owners(a) + Owners(b)
  {
  }

  /** Over any run from a state of the invariant, a mutex goes through its own operations, its
      grants are its own, and the grants are told in the order in which they are made. */
  lemma {:induction false} RunOnMutex(s: Server, at: map<Core, Place>, es: seq<Event>, t: Server, m: nat)
    requires Inv(s, at) && ServerRuns(s, es, t)
    ensures MutexAt(t, m) == AfterMutex(MutexAt(s, m), On(RunOps(s, es), m))
    ensures GrantedOn(RunGrants(s, es), m) == Grants(MutexAt(s, m), On(RunOps(s, es), m))
    ensures ToldOwners(RunReplies(s, es)) == Owners(RunGrants(s, es))
    decreases |es|
  {
    hide Inv, Allowed, Accepted, NextServer, AfterMutex, GrantsBy, Grants, ToldOwners, GrantedOn, Owners, EventOps, On;
    hide EventReplies, MutexAt;
    if es == [] {
      NothingToDo(MutexAt(s, m), m);
      NoGrants(m);
    } else {
      var e, s1 := es[0], NextServer(s, es[0]);
      EventOnMutex(s, at, e, m);
      var at' := ServerStepOk(s, at, e);
      RunOnMutex(s1, at', es[1..], t, m);
      OnConcat(EventOps(s, e), RunOps(s1, es[1..]), m);
      AfterConcat(MutexAt(s, m), On(EventOps(s, e), m), On(RunOps(s1, es[1..]), m));
      GrantedOnConcat(GrantsBy(s.mutexes, EventOps(s, e)), RunGrants(s1, es[1..]), m);
      ToldConcat(EventReplies(s, e), RunReplies(s1, es[1..]));
      OwnersConcat(GrantsBy(s.mutexes, EventOps(s, e)), RunGrants(s1, es[1..]));
    }
  }

  lemma {:induction false} NoGrants(m: nat)
    ensures GrantedOn([], m) == [] && Owners([]) == []
  {
  }

  /** In every run each mutex is granted in the order in which it was asked for, by lock requests and
      by the waiters that signals and broadcasts wake, no claim lost or repeated; and the replies
      that tell owners are exactly the grants, in their order. */
  lemma {:induction false} MutexesInOrder(s: Server, es: seq<Event>, t: Server, m: nat)
    requires InitServer(s) && ServerRuns(s, es, t)
    ensures Requests(On(RunOps(s, es), m)) == GrantedOn(RunGrants(s, es), m) + MutexAt(t, m).waiting
    ensures ToldOwners(RunReplies(s, es)) == Owners(RunGrants(s, es))
  {
    InitServerOk(s);
    var x := MutexAt(s, m);
    assert x == Mutex(None, []);
    hide InitServer, ServerRuns, AfterMutex, Grants, On, ToldOwners, GrantedOn, Owners, MutexAt, Requests;
    RunOnMutex(s, map[], es, t, m);
    MutexFifo(x, On(RunOps(s, es), m));
    assert [] + Requests(On(RunOps(s, es), m)) == Requests(On(RunOps(s, es), m));
  }

  // ----- conditions -----

  ghost function WaitersAt(s: Server, v: nat): seq<Core> {
    if v < |s.conds| then Cores(s.conds[v]) else []
  }

  ghost function Waits(e: Event, v: nat): seq<Core> {
    if e.Message? && e.r.CondWait? && e.r.v == v then [e.r.c] else []
  }

  ghost function Wakes(s: Server, e: Event, v: nat): seq<Core> {
    if !e.Message? then []
    else if e.r.CondBroadcast? && e.r.v == v then WaitersAt(s, v)
    else if e.r.CondSignal? && e.r.v == v && WaitersAt(s, v) != [] then WaitersAt(s, v)[..1]
    else []
  }

  ghost function RunWaits(es: seq<Event>, v: nat): seq<Core> {
    if es == [] then [] else Waits(es[0], v) + RunWaits(es[1..], v)
  }

  ghost function RunWakes(s: Server, es: seq<Event>, v: nat): seq<Core>
    decreases |es|
  {
    if es == [] then [] else Wakes(s, es[0], v) + RunWakes(NextServer(s, es[0]), es[1..], v)
  }

  lemma {:induction false} EventOnCond(s: Server, at: map<Core, Place>, e: Event, v: nat)
    requires Inv(s, at) && Allowed(s, e) && (e.Message? ==> Accepted(s, e.r))
    ensures WaitersAt(s, v) + Waits(e, v) == Wakes(s, e, v) + WaitersAt(NextServer(s, e), v)
  {
    hide Inv, Allowed, Handle, MutexesAfter, BarriersAfter, ToldOwners, GrantsBy, OpsOf, Owners, Erased, Cores;
    NoCores();
    if e.Message? {
      StepLawful(s, at, e.r);
      if e.r.CondWait? {
        CoresAppend(s.conds[e.r.v], CondWaiter(e.r.c, e.r.m, e.r.time));
      } else if e.r.CondSignal? && s.conds[e.r.v] != [] {
        ErasedCores(s.conds[e.r.v]);
        HeadAndTail(Cores(s.conds[e.r.v]));
      }
    }
  }

  lemma {:induction false} NoCores()
    ensures Cores([]) == []
  {
  }

  lemma {:induction false} HeadAndTail(q: seq<Core>)
    ensures q != [] ==> q[..1] + q[1..] == q
  {
  }

  /** Over any run a condition wakes in the order of the waits, no waiter lost or repeated. */
  lemma {:induction false} RunOnCond(s: Server, at: map<Core, Place>, es: seq<Event>, t: Server, v: nat)
    requires Inv(s, at) && ServerRuns(s, es, t)
    ensures WaitersAt(s, v) + RunWaits(es, v) == RunWakes(s, es, v) + WaitersAt(t, v)
    decreases |es|
  {
    hide Inv, Allowed, Accepted, NextServer, Waits, Wakes, WaitersAt;
    if es != [] {
      var e, s1 := es[0], NextServer(s, es[0]);
      EventOnCond(s, at, e, v);
      var at' := ServerStepOk(s, at, e);
      RunOnCond(s1, at', es[1..], t, v);
      Regroup(WaitersAt(s, v), Waits(e, v), RunWaits(es[1..], v), Wakes(s, e, v), WaitersAt(s1, v),
        RunWakes(s1, es[1..], v), WaitersAt(t, v));
    }
  }

  lemma {:induction false} ConditionsInOrder(s: Server, es: seq<Event>, t: Server, v: nat)
    requires InitServer(s) && ServerRuns(s, es, t)
    ensures RunWaits(es, v) == RunWakes(s, es, v) + WaitersAt(t, v)
  {
    InitServerOk(s);
    assert WaitersAt(s, v) == [];
    hide InitServer, ServerRuns, WaitersAt;
    RunOnCond(s, map[], es, t, v);
    assert [] + RunWaits(es, v) == RunWaits(es, v);
  }

  // ----- barriers -----

  ghost function ArrivalsOf(e: Event, b: nat): seq<Arrival> {
    if e.Message? && e.r.BarrierWait? && e.r.b == b then [Arrival(e.r.c, e.r.time)] else []
  }

  /** The arrivals of a run at a barrier, in order. */
  ghost function RunArrivals(es: seq<Event>, b: nat): seq<Arrival> {
    if es == [] then [] else ArrivalsOf(es[0], b) + RunArrivals(es[1..], b)
  }

  ghost function AnswersOf(s: Server, e: Event, b: nat): seq<Reply> {
    if e.Message? && e.r.BarrierWait? && e.r.b == b then Handle(s, e.r).1 else []
  }

  /** The replies to arrivals at a barrier, in order. */
  ghost function RunAnswers(s: Server, es: seq<Event>, b: nat): seq<Reply>
    decreases |es|
  {
    if es == [] then [] else AnswersOf(s, es[0], b) + RunAnswers(NextServer(s, es[0]), es[1..], b)
  }

  /** The replies that release some batches. */
  ghost function Answers(bs: seq<Batch>): seq<Reply> {
    if bs == [] then [] else Replies(bs[0].cores, Code(BARRIER_WAIT_RESPONSE, bs[0].time)) + Answers(bs[1..])
  }

  lemma {:induction false} AnswersConcat(a: seq<Batch>, b: seq<Batch>)
    ensures Answers(a + b) == Answers(a) + Answers(b)
  {
    if a == [] {
      assert a + b == b;
    } else {
      assert (a + b)[1..] == a[1..] + b;
      AnswersConcat(a[1..], b);
    }
  }

  /** An arrival joins those that wait, or completes the batch. */
  lemma {:induction false} ArriveBatch(x: Barrier, batch: seq<Arrival>, a: Arrival)
    requires HeldUp(x, batch)
    ensures var (y, woken) := Arrive(x, a.core, a.time);
      var all := batch + [a];
      && y.count == x.count
      && (if |all| < x.count then HeldUp(y, all) && woken == []
          else HeldUp(y, []) && woken == ArrivalCores(all) && y.maxTime == Latest(all))
  {
    var all := batch + [a];
    assert all[..|all| - 1] == batch;
    assert ArrivalCores(all) == x.waiting + [a.core];
  }

  lemma {:induction false} GroupsFirst(batch: seq<Arrival>, rest: seq<Arrival>)
    requires batch != []
    ensures Groups(batch + rest, |batch|) == [Batch(ArrivalCores(batch), Latest(batch))] + Groups(rest, |batch|)
  {
    assert (batch + rest)[..|batch|] == batch && (batch + rest)[|batch|..] == rest;
  }

  /** Barriers keep their count and change only by arrivals. */
  lemma {:induction false} EventOnBarrier(s: Server, at: map<Core, Place>, e: Event, b: nat)
    requires Inv(s, at) && Allowed(s, e) && (e.Message? ==> Accepted(s, e.r))
    ensures var t := NextServer(s, e);
      && |s.barriers| <= |t.barriers|
      && (b < |s.barriers| && ArrivalsOf(e, b) == [] ==> t.barriers[b] == s.barriers[b])
      && (b < |s.barriers| && ArrivalsOf(e, b) != [] ==> t.barriers[b] == Arrive(s.barriers[b], e.r.c, e.r.time).0)
      && (|s.barriers| <= b < |t.barriers| ==> t.barriers[b].waiting == [])
      && (b >= |s.barriers| ==> ArrivalsOf(e, b) == [])
  {
    hide Inv, Allowed, Handle, MutexesAfter, CondsAfter, ToldOwners, GrantsBy, OpsOf, Owners;
    if e.Message? {
      StepLawful(s, at, e.r);
    }
  }

  lemma {:induction false} ReplyBatch(s: Server, e: Event, b: nat, batch: seq<Arrival>)
    requires b < |s.barriers| && HeldUp(s.barriers[b], batch) && ArrivalsOf(e, b) != []
    ensures var all := batch + ArrivalsOf(e, b);
      AnswersOf(s, e, b) ==
        if |all| < s.barriers[b].count then [] else Answers([Batch(ArrivalCores(all), Latest(all))])
  {
    var all := batch + ArrivalsOf(e, b);
    hide DoBarrierWait, HeldUp;
    BarrierReplies(s, b, batch, Arrival(e.r.c, e.r.time));
    var bs := [Batch(ArrivalCores(all), Latest(all))];
    assert bs[1..] == [];
    assert Answers(bs) == Replies(ArrivalCores(all), Code(BARRIER_WAIT_RESPONSE, Latest(all))) + [];
  }

  /** From a state in which the arrivals `batch` wait, a barrier answers the groups of these and the
      arrivals of the run. */
  lemma {:induction false} RunOnBarrier(s: Server, at: map<Core, Place>, es: seq<Event>, t: Server, b: nat,
      batch: seq<Arrival>)
    requires Inv(s, at) && ServerRuns(s, es, t) && b < |s.barriers| && HeldUp(s.barriers[b], batch)
    ensures b < |t.barriers| && t.barriers[b].count == s.barriers[b].count
    ensures RunAnswers(s, es, b) == Answers(Groups(batch + RunArrivals(es, b), s.barriers[b].count))
    decreases |es|
  {
    hide Inv, Allowed, Accepted, NextServer, ArrivalsOf, AnswersOf, Answers, Groups;
    if es == [] {
      assert batch + [] == batch;
      TooFew(batch, s.barriers[b]);
    } else {
      var e, s1, n := es[0], NextServer(s, es[0]), s.barriers[b].count;
      EventOnBarrier(s, at, e, b);
      var at' := ServerStepOk(s, at, e);
      var arrived, rest := ArrivalsOf(e, b), RunArrivals(es[1..], b);
      var all := batch + arrived;
      assert batch + (arrived + rest) == all + rest;
      if arrived == [] {
        assert all == batch;
        NoAnswer(s, e, b);
        RunOnBarrier(s1, at', es[1..], t, b, batch);
      } else {
        var a := OneArrival(e, b);
        ArriveBatch(s.barriers[b], batch, a);
        ReplyBatch(s, e, b, batch);
        if |all| < n {
          RunOnBarrier(s1, at', es[1..], t, b, all);
        } else {
          RunOnBarrier(s1, at', es[1..], t, b, []);
          assert [] + rest == rest;
          GroupsFirst(all, rest);
          AnswersConcat([Batch(ArrivalCores(all), Latest(all))], Groups(rest, n));
        }
      }
    }
  }

  lemma {:induction false} TooFew(batch: seq<Arrival>, x: Barrier)
    requires HeldUp(x, batch)
    ensures Answers(Groups(batch, x.count)) == []
  {
  }

  lemma {:induction false} OneArrival(e: Event, b: nat) returns (a: Arrival)
    requires ArrivalsOf(e, b) != []
    ensures ArrivalsOf(e, b) == [a] && e.Message? && e.r.BarrierWait? && a == Arrival(e.r.c, e.r.time)
  {
    a := Arrival(e.r.c, e.r.time);
  }

  lemma {:induction false} NoAnswer(s: Server, e: Event, b: nat)
    requires ArrivalsOf(e, b) == []
    ensures AnswersOf(s, e, b) == []
  {
  }

  /** The same from a state in which the barrier does not exist yet or nobody waits. */
  lemma {:induction false} RunOnNewBarrier(s: Server, at: map<Core, Place>, es: seq<Event>, t: Server, b: nat)
    requires Inv(s, at) && ServerRuns(s, es, t) && b < |t.barriers| && t.barriers[b].count > 0
    requires b < |s.barriers| ==> s.barriers[b].waiting == [] && s.barriers[b].count > 0
    ensures RunAnswers(s, es, b) == Answers(Groups(RunArrivals(es, b), t.barriers[b].count))
    decreases |es|
  {
    hide Inv, Allowed, Accepted, NextServer, ArrivalsOf, AnswersOf, Answers, Groups;
    if b < |s.barriers| {
      assert HeldUp(s.barriers[b], []);
      RunOnBarrier(s, at, es, t, b, []);
      assert [] + RunArrivals(es, b) == RunArrivals(es, b);
    } else {
      var e, s1 := es[0], NextServer(s, es[0]);
      EventOnBarrier(s, at, e, b);
      NoAnswer(s, e, b);
      var at' := ServerStepOk(s, at, e);
      if b < |s1.barriers| {
        CountStays(s1, at', es[1..], t, b);
      }
      RunOnNewBarrier(s1, at', es[1..], t, b);
      assert [] + RunAnswers(s1, es[1..], b) == RunAnswers(s1, es[1..], b);
      assert [] + RunArrivals(es[1..], b) == RunArrivals(es[1..], b);
    }
  }

  lemma {:induction false} CountStays(s: Server, at: map<Core, Place>, es: seq<Event>, t: Server, b: nat)
    requires Inv(s, at) && ServerRuns(s, es, t) && b < |s.barriers|
    ensures b < |t.barriers| && t.barriers[b].count == s.barriers[b].count
    decreases |es|
  {
    hide Inv, Allowed, Accepted, NextServer, ArrivalsOf;
    if es != [] {
      EventOnBarrier(s, at, es[0], b);
      var at' := ServerStepOk(s, at, es[0]);
      CountStays(NextServer(s, es[0]), at', es[1..], t, b);
    }
  }

  /** In every run a barrier of count n answers its arrivals only in whole batches of n consecutive
      ones, in order, none before the n-th, each once, all with the latest time of the batch. */
  lemma {:induction false} BarriersInBatches(s: Server, es: seq<Event>, t: Server, b: nat)
    requires InitServer(s) && ServerRuns(s, es, t) && b < |t.barriers| && t.barriers[b].count > 0
    ensures RunAnswers(s, es, b) == Answers(Groups(RunArrivals(es, b), t.barriers[b].count))
  {
    InitServerOk(s);
    assert s.barriers == [];
    hide InitServer, ServerRuns, Inv;
    RunOnNewBarrier(s, map[], es, t, b);
  }
}
