/** Whole runs of the master and its clients: which requests abort, and what holds in every
    state that any run reaches. */
module McpRuns {
  import opened Options
  import opened FutexWords
  import opened SyncObjects
  import opened Threads
  import opened MasterControl
  import opened McpInvariant
  import opened McpThreads
  import opened McpClients

  // ----- clients of the thread requests -----

  ghost predicate Grown(s: Server, t: Server) {
    && |t.tiles| == |s.tiles| && s.counter <= t.counter && |s.ids| <= |t.ids|
    && forall i :: 0 <= i <= s.counter && i < |s.ids| ==> t.ids[i] == s.ids[i]
  }

  /** The ids that clients wait for stay what they are. */
  lemma {:induction false} BlockedGrown(s: Server, t: Server, cl: seq<Client>, at: map<Core, Place>, busy: Option<Core>)
    requires Blocked(s, cl, at, busy) && Grown(s, t)
    ensures Blocked(t, cl, at, busy)
  {
  }

  lemma {:induction false} ScheduleFrame(s: Server, c: Core, d: Thread)
    ensures var t := ScheduleThread(s, c, d);
      s == t.(tiles := s.tiles, starting := s.starting, aborted := s.aborted) && |t.tiles| == |s.tiles|
  {
    hide Startable, Schedule;
  }

  lemma {:induction false} StallSlotFrame(s: Server, c: Core, j: int)
    ensures var t := StallSlot(s, c, j); s == t.(tiles := s.tiles, aborted := s.aborted) && |t.tiles| == |s.tiles|
  {
  }

  lemma {:induction false} SpawnFrame(s: Server, c: Core, j: nat, dest: Option<nat>)
    requires c < |s.tiles| && (s.counter > 0 ==> s.counter < |s.ids|)
    requires PickSlot(StallSlot(s, c, j), c, dest).Some?
    ensures var (t, rs) := DoSpawn(s, c, j, dest);
      && Grown(s, t) && t.exited == s.exited && t.mutexes == s.mutexes && t.conds == s.conds && t.barriers == s.barriers
      && t.counter == s.counter + 1 < |t.ids| && rs == [Reply(c, Spawned(t.ids[t.counter], t.counter))]
      && t.ids[t.counter] == PickSlot(StallSlot(s, c, j), c, dest).value
      && |t.ids| == if |s.ids| <= t.counter then 2 * t.counter else |s.ids|
  {
    hide StallSlot, PickSlot, ScheduleThread, NewThreadId, ResumeThread;
    StallSlotFrame(s, c, j);
    var s1 := StallSlot(s, c, j);
    var d := PickSlot(s1, c, dest).value;
    NewThreadIdOk(s1, d);
    ScheduleFrame(NewThreadId(s1, d), c, d);
    ResumeFrame(ScheduleThread(NewThreadId(s1, d), c, d), c);
    ResumeSize(ScheduleThread(NewThreadId(s1, d), c, d), c);
  }

  /** An accepted spawn is answered once, with the next id and the slot described, which that id
      stands for from then on. */
  lemma {:induction false} SpawnGoes(s: Server, at: map<Core, Place>, c: Core, j: nat, dest: Option<nat>)
    requires Inv(s, at) && Front(s, c) == Running && LineOf(s, c)[0] == j && s.tiles != [] && Roomy(s, dest)
    ensures var (t, rs) := Handle(s, Spawn(c, j, dest));
      exists th :: Chosen(s, c, dest, th) && rs == [Reply(c, Spawned(th, s.counter + 1))]
        && t.counter == s.counter + 1 < |t.ids| && t.ids[t.counter] == th
        && |t.ids| == if |s.ids| <= t.counter then 2 * t.counter else |s.ids|
  {
    hide Front, LineOf, DoSpawn, StallSlot, PickSlot, Roomy, Chosen, ThreadsOk, ObjectsOk;
    Unfold(s, at);
    hide Parked, TilesOk, JoinersOk;
    SpawnSlot(s, c, j, dest);
    SpawnFrame(s, c, j, dest);
  }

  lemma {:induction false} SpawnClients(s: Server, cl: seq<Client>, at: map<Core, Place>, c: Core, j: nat,
      dest: Option<nat>)
    requires SysOk(s, cl, at, Some(c)) && Front(s, c) == Running && LineOf(s, c)[0] == j && dest != Some(0)
    requires c < |cl| && cl[c].Waiting? && cl[c].want == WantSpawn
    requires c < |s.tiles| && PickSlot(StallSlot(s, c, j), c, dest).Some?
    ensures var (t, rs) := DoSpawn(s, c, j, dest); SysOk(t, DeliverAll(cl, rs, t.exited), at, None)
  {
    hide Front, Blocked, Owned, Recorded, DoSpawn, StallSlot, PickSlot, DeliverAll, ThreadsOk, ObjectsOk;
    Whereabouts(s, at, c);
    SpawnOk(s, c, j, dest, at);
    Unfold(s, at);
    SpawnFrame(s, c, j, dest);
    hide Inv;
    var (t, rs) := DoSpawn(s, c, j, dest);
    BlockedGrown(s, t, cl, at, Some(c));
    Acked(t, cl, at, c, rs[0].body);
  }

  lemma {:induction false} StartClients(s: Server, cl: seq<Client>, at: map<Core, Place>, c: Core, j: nat)
    requires SysOk(s, cl, at, None) && Thread(c, j) in s.starting
    ensures SysOk(DoStart(s, c, j).0, cl, at, None) && DoStart(s, c, j).1 == []
  {
    hide Inv, ClientsOk, DoStart;
    StartThreadOk(s, c, j, at);
    StartSize(s, c, j);
    Untouched(s, DoStart(s, c, j).0, cl, at, None);
  }

  lemma {:induction false} StartSize(s: Server, c: Core, j: nat)
    ensures var (t, rs) := DoStart(s, c, j);
      && rs == [] && SameIds(s, t) && t.mutexes == s.mutexes && t.conds == s.conds && t.barriers == s.barriers
  {
  }

  /** What whoever joins `th` is told when `th` has left. */
  function Told(s: Server, th: Thread, time: nat): seq<Reply> {
    if th in s.joiners then [Reply(s.joiners[th].tile, Joined(time))] else []
  }

  /** The thread behind the first in a core's line, or -1. */
  ghost function Behind(s: Server, c: Core): int {
    if |LineOf(s, c)| > 1 then LineOf(s, c)[1] else -1
  }

  ghost predicate ExitTold(s: Server, c: Core, j: nat, time: nat, rs: seq<Reply>) {
    rs == Told(s, Thread(c, j), time) + [Reply(c, Left(Behind(s, c)))]
  }

  lemma {:induction false} ExitReplies(s: Server, c: Core, j: nat, time: nat)
    requires TilesOk(s) && Front(s, c) == Running && LineOf(s, c)[0] == j
    requires Thread(c, j) in s.joiners ==> s.joiners[Thread(c, j)].tile != c
    ensures ExitTold(s, c, j, time, DoExit(s, c, j, time).1)
  {
    LeavingTiles(s, c, j, time);
    var x := Finish(s.tiles[c], j, time);
    var s1 := s.(tiles := s.tiles[c := x], exited := s.exited + {SlotOf(s, Thread(c, j)).id});
    WakeAside(s1, Thread(c, j), time, s1.starting, c);
    hide TilesOk, Finish, FirstWith, ResumeSlot, StartNext;
    var s2 := WakeUpWaiter(s1, Thread(c, j), time).0;
    assert NextInLine(s2, c).1 == [Reply(c, Left(if x.run == [] then -1 else x.run[0]))];
  }

  /** The slot of the thread that left is free, and only threads change. */
  lemma {:induction false} ExitFrame(s: Server, c: Core, j: nat, time: nat)
    requires TilesOk(s) && Front(s, c) == Running && LineOf(s, c)[0] == j
    requires Thread(c, j) in s.joiners ==> s.joiners[Thread(c, j)].tile != c
    ensures var t := DoExit(s, c, j, time).0;
      && SameIds(s, t) && t.mutexes == s.mutexes && t.conds == s.conds && t.barriers == s.barriers
      && HasSlot(t, Thread(c, j)) && SlotOf(t, Thread(c, j)).status == Idle
  {
    ExitIs(s, c, j, time);
    var u := Leaving(s, c, j, time);
    assert u.tiles[c].slots[j].status == Idle;
    hide DoExit, TilesOk, Finish;
  }

  /** A free slot's thread has left. */
  lemma {:induction false} IdleHasLeft(s: Server, want: Want, th: Thread)
    requires IdsOk(s) && HasSlot(s, th) && SlotOf(s, th).status == Idle && Fits(s, want, OnJoin(th))
    ensures want.issued ==> want.id in s.exited
  {
    hide HasSlot, SlotOf;
  }

  lemma {:induction false} ExitFacts(s: Server, c: Core, j: nat, time: nat, at: map<Core, Place>)
    requires Inv(s, at) && Front(s, c) == Running && LineOf(s, c)[0] == j
    ensures var (t, rs) := DoExit(s, c, j, time);
      var th := Thread(c, j);
      && (th in s.joiners ==> s.joiners[th].tile in at && at[s.joiners[th].tile] == OnJoin(th))
      && Inv(t, if th in s.joiners then at - {s.joiners[th].tile} else at)
      && SameIds(s, t) && t.mutexes == s.mutexes && t.conds == s.conds && t.barriers == s.barriers
      && HasSlot(t, th) && SlotOf(t, th).status == Idle && ExitTold(s, c, j, time, rs)
  {
    hide Front, DoExit, HasSlot, SlotOf, TilesOk, ExitTold;
    JoinersAway(s, at, c);
    hide Parked;
    ExitOk(s, c, j, time, at);
    ExitFrame(s, c, j, time);
    ExitReplies(s, c, j, time);
  }

  lemma {:induction false} ExitClients(s: Server, cl: seq<Client>, at: map<Core, Place>, c: Core, j: nat, time: nat)
    requires SysOk(s, cl, at, Some(c)) && Front(s, c) == Running && LineOf(s, c)[0] == j
    requires c < |cl| && cl[c].Waiting? && cl[c].want == WantLeave
    ensures var (t, rs) := DoExit(s, c, j, time);
      var th := Thread(c, j);
      SysOk(t, DeliverAll(cl, rs, t.exited), if th in s.joiners then at - {s.joiners[th].tile} else at, None)
  {
    hide Inv, Front, Blocked, Owned, Recorded, DoExit, DeliverAll, HasSlot;
    var th := Thread(c, j);
    Whereabouts(s, at, c);
    ExitFacts(s, c, j, time, at);
    NotBroken(s, cl, at, Some(c));
    var (t, rs) := DoExit(s, c, j, time);
    var next := Behind(s, c);
    DeliverConcat(cl, Told(s, th, time), [Reply(c, Left(next))], t.exited);
    if th in s.joiners {
      var d := s.joiners[th].tile;
      JoinerTold(s, t, cl, at, c, th, time);
      Acked(t, cl[d := Ready(cl[d].held)], at - {d}, c, Left(next));
    } else {
      BlockedSame(s, t, cl, at, Some(c));
      DeliverNone(cl, t.exited);
      Acked(t, cl, at, c, Left(next));
    }
  }

  /** Whoever joins a thread that has left is told so, not before. */
  lemma {:induction false} JoinerTold(s: Server, t: Server, cl: seq<Client>, at: map<Core, Place>, c: Core, th: Thread,
      time: nat)
    requires SysOk(s, cl, at, Some(c)) && c !in at && th in s.joiners
    requires var d := s.joiners[th].tile; d in at && at[d] == OnJoin(th) && Inv(t, at - {d})
    requires SameIds(s, t) && t.mutexes == s.mutexes && t.conds == s.conds
    requires HasSlot(t, th) && SlotOf(t, th).status == Idle
    ensures var d := s.joiners[th].tile;
      && d < |cl| && d != c && DeliverAll(cl, Told(s, th, time), t.exited) == cl[d := Ready(cl[d].held)]
      && SysOk(t, cl[d := Ready(cl[d].held)], at - {d}, Some(c))
  {
    hide Front, Blocked, Owned, Recorded, ThreadsOk, ObjectsOk, OffConds, HasSlot, SlotOf;
    var d := s.joiners[th].tile;
    NotBroken(s, cl, at, Some(c));
    Whereabouts(s, at, d);
    Unfold(t, at - {d});
    hide Parked, TilesOk, JoinersOk;
    IdleHasLeft(t, cl[d].want, th);
    hide IdsOk;
    Deliver1(cl, Reply(d, Joined(time)), t.exited);
    BlockedFree(s, t, cl, at, Some(c), d, Ready(cl[d].held));
    OwnedSame(s.mutexes, cl, d, Ready(cl[d].held));
    RecordedOther(s.conds, cl, d, Ready(cl[d].held));
  }

  lemma {:induction false} JoinFrame(s: Server, c: Core, j: nat, id: nat)
    requires id < |s.ids| && s.ids[id] !in s.joiners && HasSlot(s, s.ids[id])
    ensures var (t, rs) := DoJoin(s, c, j, id);
      && SameIds(s, t) && t.mutexes == s.mutexes && t.conds == s.conds
      && t.barriers == s.barriers && t.exited == s.exited
      && rs == if SlotOf(s, s.ids[id]).status == Idle then [Reply(c, Joined(SlotOf(s, s.ids[id]).completed))] else []
  {
    StallFrame(s, c);
    StallSize(s, c);
    hide StallThread, SetRunning;
  }

  lemma {:induction false} JoinClients(s: Server, cl: seq<Client>, at: map<Core, Place>, c: Core, j: nat, id: nat)
    requires SysOk(s, cl, at, Some(c)) && Front(s, c) == Running && LineOf(s, c)[0] == j
    requires c < |cl| && cl[c].Waiting? && cl[c].want == WantJoin(id, 0 < id <= s.counter)
    requires id < |s.ids| && s.ids[id] !in s.joiners
    ensures HasSlot(s, s.ids[id])
    ensures var (t, rs) := DoJoin(s, c, j, id);
      SysOk(t, DeliverAll(cl, rs, t.exited),
        if SlotOf(s, s.ids[id]).status == Idle then at else at[c := OnJoin(s.ids[id])], None)
  {
    hide Front, Blocked, Owned, Recorded, DoJoin, DeliverAll, ThreadsOk, ObjectsOk, OffConds, HasSlot, SlotOf;
    var th := s.ids[id];
    Whereabouts(s, at, c);
    Unfold(s, at);
    hide Parked, TilesOk, JoinersOk, IdsOk;
    JoinOk(s, c, j, id, at);
    JoinFrame(s, c, j, id);
    var (t, rs) := DoJoin(s, c, j, id);
    if SlotOf(s, th).status == Idle {
      IdleHasLeft(s, cl[c].want, th);
      BlockedSame(s, t, cl, at, Some(c));
      Acked(t, cl, at, c, rs[0].body);
    } else {
      BlockedPark(s, t, cl, at, c, OnJoin(th));
      DeliverNone(cl, t.exited);
    }
  }

  // ----- the system -----

  datatype System = System(server: Server, clients: seq<Client>)

  /** A message to the master, or a store to a word of the application's memory. */
  datatype Event = Message(r: Request) | Store(addr: int, word: Int32)

  /** Only a running thread sends a request, for itself; a started thread reports once.  A spawn names
      tile 0 only while that has no idle slot, which is always so with one thread per core. */
  ghost predicate Allowed(s: Server, e: Event) {
    e.Message? ==>
      var r := e.r;
      if r.Start? then Thread(r.c, r.idx) in s.starting
      else
        && Front(s, r.c) == Running && s.tiles != []
        && (r.Spawn? || r.Exit? || r.Join? ==> r.idx == LineOf(s, r.c)[0])
        && (r.Spawn? && r.dest == Some(0) ==> FirstWith(s.tiles[0].slots, Idle, 0) < 0)
  }

  /** A client sends a request only when it is not blocked. */
  ghost predicate Enabled(y: System, e: Event) {
    && Allowed(y.server, e)
    && (e.Message? && !e.r.Start? ==> e.r.c < |y.clients| && y.clients[e.r.c].Ready?)
  }

  /** A signal goes to a condition whose waiters all gave up the same mutex. */
  ghost predicate Careful(s: Server, e: Event) {
    e.Message? && e.r.CondSignal? && e.r.v < |s.conds| ==> OneMutex(s.conds[e.r.v])
  }

  /** What the source checks of a request, and stops if it is not so. */
  ghost predicate Accepted(s: Server, r: Request) {
    match r
    case MutexLock(c, m, _) => m < |s.mutexes|
    case MutexUnlock(c, m, _) => m < |s.mutexes| && s.mutexes[m].owner == Some(c)
    case CondWait(c, v, m, _) => v < |s.conds| && m < |s.mutexes| && s.mutexes[m].owner == Some(c)
    case CondSignal(_, v, _) => v < |s.conds|
    case CondBroadcast(_, v, _) => v < |s.conds|
    case BarrierWait(_, b, _) => b < |s.barriers| && s.barriers[b].count >= 1
    case FutexWakeOp(_, _, _, _, _, op) => KnownOp(op)
    case Spawn(c, _, dest) => c < |s.tiles| && Roomy(s, dest)
    case Join(_, _, id) => id < |s.ids| && s.ids[id] !in s.joiners
    case _ => true
  }

  ghost function Next(y: System, e: Event): System
    requires Enabled(y, e)
  {
    match e
    case Store(a, w) => System(y.server.(memory := y.server.memory[a := w]), y.clients)
    case Message(r) =>
      var (t, rs) := Handle(y.server, r);
      if r.Start? then System(t, DeliverAll(y.clients, rs, t.exited))
      else
        var sent := y.clients[r.c := Sending(y.server, r, y.clients[r.c].held)];
        System(t, DeliverAll(sent, rs, t.exited))
  }

  // ----- one step -----

  /** The client has sent its request: it is blocked, and may have given up a mutex. */
  lemma {:induction false} Sent(s: Server, cl: seq<Client>, at: map<Core, Place>, r: Request)
    requires SysOk(s, cl, at, None) && Front(s, r.c) == Running && r.c < |cl| && cl[r.c].Ready? && !r.Start?
    ensures var cl1 := cl[r.c := Sending(s, r, cl[r.c].held)];
      && r.c !in at && Blocked(s, cl1, at, Some(r.c)) && Recorded(s.conds, cl1) && cl1[r.c].Waiting?
      && (!r.MutexUnlock? && !r.CondWait? ==> Owned(s.mutexes, cl1))
      && ((r.MutexUnlock? || r.CondWait?) && OwnerIs(s.mutexes, r.m, r.c) ==> Dropping(s.mutexes, cl1, r.c, r.m))
  {
    hide Inv, Front, Owned, Recorded, OffConds;
    var c, x := r.c, Sending(s, r, cl[r.c].held);
    Whereabouts(s, at, c);
    RecordedOther(s.conds, cl, c, x);
    if r.MutexUnlock? || r.CondWait? {
      if OwnerIs(s.mutexes, r.m, c) {
        HeldIs(s.mutexes, cl, c, r.m);
        OwnedSame(s.mutexes, cl, c, Waiting(x.want, cl[c].held));
        assert x.held + {r.m} == cl[c].held;
        assert cl[c := x][c := Waiting(x.want, x.held + {r.m})] == cl[c := Waiting(x.want, cl[c].held)];
      }
    } else {
      OwnedSame(s.mutexes, cl, c, x);
    }
  }

  lemma {:induction false} SentOk(s: Server, cl: seq<Client>, at: map<Core, Place>, r: Request)
    requires SysOk(s, cl, at, None) && Front(s, r.c) == Running && r.c < |cl| && cl[r.c].Ready?
    requires !r.Start? && !r.MutexUnlock? && !r.CondWait?
    ensures SysOk(s, cl[r.c := Sending(s, r, cl[r.c].held)], at, Some(r.c)) && r.c !in at
  {
    hide Inv, Front, Blocked, Owned, Recorded, Sending;
    Sent(s, cl, at, r);
  }

  lemma {:induction false} HeldIs(mutexes: seq<Mutex>, cl: seq<Client>, c: Core, m: nat)
    requires Owned(mutexes, cl) && c < |cl| && !cl[c].Broken? && OwnerIs(mutexes, m, c)
    ensures m in cl[c].held
  {
    assert Has(cl[c], m);
  }

  /** New objects: nobody owns them or waits for them. */
  lemma {:induction false} InitClients(s: Server, cl: seq<Client>, at: map<Core, Place>, r: Request)
    requires SysOk(s, cl, at, Some(r.c)) && r.c < |cl| && r.c !in at && cl[r.c].Waiting? && cl[r.c].want == WantIndex
    requires r.MutexInit? || r.CondInit? || r.BarrierInit?
    ensures var (t, rs) := Handle(s, r); SysOk(t, DeliverAll(cl, rs, t.exited), at, None)
  {
    hide Inv, Owned, Recorded, Blocked, Handle;
    var (t, rs) := Handle(s, r);
    InitQuiet(s, r, at);
    InitFrame(s, r);
    OwnedInit(s.mutexes, cl);
    RecordedInit(s.conds, cl);
    BlockedSame(s, t, cl, at, Some(r.c));
    Acked(t, cl, at, r.c, rs[0].body);
  }

  lemma {:induction false} InitFrame(s: Server, r: Request)
    requires r.MutexInit? || r.CondInit? || r.BarrierInit?
    ensures var (t, rs) := Handle(s, r);
      && SameIds(s, t) && |rs| == 1 && rs[0].core == r.c && rs[0].body.Index?
      && (t.mutexes == s.mutexes || t.mutexes == s.mutexes + [Mutex(None, [])])
      && (t.conds == s.conds || t.conds == s.conds + [[]])
  {
  }

  lemma {:induction false} RecordedInit(conds: seq<seq<CondWaiter>>, cl: seq<Client>)
    requires Recorded(conds, cl)
    ensures Recorded(conds + [[]], cl)
  {
  }

  lemma {:induction false} OwnedInit(mutexes: seq<Mutex>, cl: seq<Client>)
    requires Owned(mutexes, cl)
    ensures Owned(mutexes + [Mutex(None, [])], cl)
  {
    var more := mutexes + [Mutex(None, [])];
    forall c: nat, m: nat | c < |cl| && !cl[c].Broken?
      ensures Has(cl[c], m) <==> OwnerIs(more, m, c)
    {
      assert Has(cl[c], m) <==> OwnerIs(mutexes, m, c);
    }
  }

  lemma {:induction false} InitQuiet(s: Server, r: Request, at: map<Core, Place>)
    requires Inv(s, at) && (r.MutexInit? || r.CondInit? || r.BarrierInit?)
    ensures Inv(Handle(s, r).0, at)
  {
    hide DoLock, DoUnlock, DoCondWait, DoSignal, DoBroadcast, DoBarrierWait, DoFutexWait, DoFutexWake, DoWakeOp;
    hide DoCmpRequeue, DoSpawn, DoStart, DoExit, DoJoin, ThreadsOk, Front;
    var t := Handle(s, r).0;
    assert forall q :: Queue(t, q) == Queue(s, q);
    hide Queue;
    QuietOk(s, t, at);
  }

  ghost predicate OfFutexes(r: Request) {
    r.FutexWait? || r.FutexWake? || r.FutexWakeOp? || r.FutexCmpRequeue?
  }

  ghost predicate OfThreads(r: Request) {
    r.Start? || r.Spawn? || r.Exit? || r.Join?
  }

  /** Requests by which a client gives up a mutex. */
  lemma {:induction false} ReleaseMessageOk(s: Server, cl: seq<Client>, at: map<Core, Place>, r: Request)
    returns (at': map<Core, Place>)
    requires SysOk(s, cl, at, None) && Enabled(System(s, cl), Message(r)) && Accepted(s, r)
    requires r.MutexUnlock? || r.CondWait?
    ensures var (t, rs) := Handle(s, r);
      SysOk(t, DeliverAll(cl[r.c := Sending(s, r, cl[r.c].held)], rs, t.exited), at', None)
  {
    var c := r.c;
    var cl1 := cl[c := Sending(s, r, cl[c].held)];
    Sent(s, cl, at, r);
    hide Inv, Front, Blocked, Owned, Recorded, Dropping, DeliverAll, LineOf, DoUnlock, DoCondWait;
    var next := Unlock(s.mutexes[r.m]).owner;
    if r.MutexUnlock? {
      UnlockClients(s, cl1, at, c, r.m, r.time);
      at' := if next.Some? then at - {next.value} else at;
    } else {
      CondWaitClients(s, cl1, at, c, r.v, r.m, r.time);
      at' := if next.Some? then at[c := OnCond(r.v)] - {next.value} else at[c := OnCond(r.v)];
    }
  }

  lemma {:induction false} SignalMessageOk(s: Server, cl: seq<Client>, at: map<Core, Place>, c: Core, v: nat, time: nat)
    returns (at': map<Core, Place>)
    requires SysOk(s, cl, at, Some(c)) && c < |cl| && c !in at && v < |s.conds| && OneMutex(s.conds[v])
    requires cl[c].Waiting? && cl[c].want == WantCode(COND_SIGNAL_RESPONSE)
    ensures var (t, rs) := DoSignal(s, c, v, time); SysOk(t, DeliverAll(cl, rs, t.exited), at', None)
  {
    hide SysOk, DeliverAll, OneMutex;
    at' := at;
    if s.conds[v] == [] {
      Acked(s, cl, at, c, Code(COND_SIGNAL_RESPONSE, 0));
    } else {
      hide DoSignal;
      SignalClients(s, cl, at, c, v, time);
      var w := s.conds[v][0];
      at' := if s.mutexes[w.mutex].owner.None? then at - {w.core} else at[w.core := OnMutex(w.mutex)];
    }
  }

  lemma {:induction false} SyncMessageOk(s: Server, cl: seq<Client>, at: map<Core, Place>, r: Request)
    returns (at': map<Core, Place>)
    requires SysOk(s, cl, at, None) && Enabled(System(s, cl), Message(r)) && Accepted(s, r) && Careful(s, Message(r))
    requires !OfThreads(r) && !OfFutexes(r) && !r.MutexUnlock? && !r.CondWait?
    ensures var (t, rs) := Handle(s, r);
      SysOk(t, DeliverAll(cl[r.c := Sending(s, r, cl[r.c].held)], rs, t.exited), at', None)
  {
    hide SysOk, Front, DeliverAll, LineOf, DoLock, DoSignal, DoBroadcast, DoBarrierWait, OneMutex;
    var c := r.c;
    var cl1 := cl[c := Sending(s, r, cl[c].held)];
    SentOk(s, cl, at, r);
    at' := at;
    match r {
      case MutexLock(_, m, time) =>
        LockClients(s, cl1, at, c, m, time);
        at' := if s.mutexes[m].owner.None? then at else at[c := OnMutex(m)];
      case CondSignal(_, v, time) => at' := SignalMessageOk(s, cl1, at, c, v, time);
      case CondBroadcast(_, v, time) => at' := BroadcastClients(s, cl1, at, c, v, time);
      case BarrierWait(_, b, time) =>
        BarrierWaitClients(s, cl1, at, c, b, time);
        var woken := Arrive(s.barriers[b], c, time).1;
        at' := at[c := OnBarrier(b)] - (set d | d in woken);
      case _ => InitClients(s, cl1, at, r);
    }
  }

  /** A spawn on tile 0 finds no slot there. */
  lemma {:induction false} NoneOnTileZero(s: Server, c: Core, j: nat, dest: Option<nat>)
    requires c < |s.tiles| && PickSlot(StallSlot(s, c, j), c, dest).Some?
    requires dest == Some(0) ==> FirstWith(s.tiles[0].slots, Idle, 0) < 0
    ensures dest != Some(0)
  {
    var t := StallSlot(s, c, j);
    assert forall k :: 0 <= k < |t.tiles[0].slots| && t.tiles[0].slots[k].status == Idle ==>
      s.tiles[0].slots[k].status == Idle;
  }

  lemma {:induction false} FutexMessageOk(s: Server, cl: seq<Client>, at: map<Core, Place>, r: Request)
    returns (at': map<Core, Place>)
    requires SysOk(s, cl, at, None) && Enabled(System(s, cl), Message(r)) && Accepted(s, r) && OfFutexes(r)
    ensures var (t, rs) := Handle(s, r);
      SysOk(t, DeliverAll(cl[r.c := Sending(s, r, cl[r.c].held)], rs, t.exited), at', None)
  {
    var c := r.c;
    var cl1 := cl[c := Sending(s, r, cl[c].held)];
    SentOk(s, cl, at, r);
    hide SysOk, Front, DeliverAll, NewValue, Compared, KnownOp, Word, LineOf;
    hide DoFutexWait, DoFutexWake, DoWakeOp, DoCmpRequeue;
    match r {
      case FutexWait(_, a, val) =>
        FutexWaitClients(s, cl1, at, c, a, val);
        at' := if val == Word(s, a) then at[c := OnFutex(a)] else at;
      case FutexWake(_, a, n) => at' := FutexWakeClients(s, cl1, at, c, a, n);
      case FutexWakeOp(_, a, n, n2, b, op) =>
        KnownExactly(op, Word(s, b));
        at' := WakeOpClients(s, cl1, at, c, a, n, n2, b, op);
      case FutexCmpRequeue(_, a, n, n2, b, val) => at' := CmpRequeueClients(s, cl1, at, c, a, n, n2, b, val);
    }
  }

  lemma {:induction false} ThreadMessageOk(s: Server, cl: seq<Client>, at: map<Core, Place>, r: Request)
    returns (at': map<Core, Place>)
    requires SysOk(s, cl, at, None) && Enabled(System(s, cl), Message(r)) && Accepted(s, r)
    requires r.Spawn? || r.Exit? || r.Join?
    ensures var (t, rs) := Handle(s, r);
      SysOk(t, DeliverAll(cl[r.c := Sending(s, r, cl[r.c].held)], rs, t.exited), at', None)
  {
    var c := r.c;
    var cl1 := cl[c := Sending(s, r, cl[c].held)];
    SentOk(s, cl, at, r);
    hide SysOk, Front, DeliverAll, StallSlot, PickSlot, Roomy, Chosen, LineOf, DoSpawn, DoExit, DoJoin;
    at' := at;
    match r {
      case Spawn(_, j, dest) =>
        SpawnSlot(s, c, j, dest);
        NoneOnTileZero(s, c, j, dest);
        SpawnClients(s, cl1, at, c, j, dest);
      case Exit(_, j, time) =>
        ExitClients(s, cl1, at, c, j, time);
        at' := if Thread(c, j) in s.joiners then at - {s.joiners[Thread(c, j)].tile} else at;
      case Join(_, j, id) =>
        JoinClients(s, cl1, at, c, j, id);
        at' := if SlotOf(s, s.ids[id]).status == Idle then at else at[c := OnJoin(s.ids[id])];
    }
  }

  /** Every accepted request keeps the invariant of master and clients. */
  lemma {:induction false} StepOk(y: System, at: map<Core, Place>, e: Event) returns (at': map<Core, Place>)
    requires SysOk(y.server, y.clients, at, None) && Enabled(y, e) && (e.Message? ==> Accepted(y.server, e.r))
    requires Careful(y.server, e)
    ensures var z := Next(y, e); SysOk(z.server, z.clients, at', None)
  {
    at' := at;
    if e.Store? {
      hide SysOk;
      MemoryClients(y.server, y.clients, at, None, y.server.memory[e.addr := e.word]);
    } else if e.r.Start? {
      hide SysOk, DoStart;
      StartClients(y.server, y.clients, at, e.r.c, e.r.idx);
    } else if OfThreads(e.r) {
      hide SysOk, Handle, Accepted, DeliverAll, Sending;
      assert y == System(y.server, y.clients);
      at' := ThreadMessageOk(y.server, y.clients, at, e.r);
    } else if OfFutexes(e.r) {
      hide SysOk, Handle, Accepted, DeliverAll, Sending;
      assert y == System(y.server, y.clients);
      at' := FutexMessageOk(y.server, y.clients, at, e.r);
    } else if e.r.MutexUnlock? || e.r.CondWait? {
      hide SysOk, Handle, Accepted, DeliverAll, Sending;
      assert y == System(y.server, y.clients);
      at' := ReleaseMessageOk(y.server, y.clients, at, e.r);
    } else {
      hide SysOk, Handle, Accepted, DeliverAll, Sending;
      assert y == System(y.server, y.clients);
      at' := SyncMessageOk(y.server, y.clients, at, e.r);
    }
  }

  lemma {:induction false} Refused(s: Server, at: map<Core, Place>, r: Request)
    requires Inv(s, at) && (r.Start? || r.c < |s.tiles|) && Allowed(s, Message(r)) && !Accepted(s, r)
    ensures Handle(s, r).0.aborted
  {
    hide StallThread, StallSlot, PickSlot, Roomy, Chosen, NewValue, Compared, KnownOp, Word, ThreadsOk, Front, LineOf;
    if r.Spawn? {
      SpawnSlot(s, r.c, r.idx, r.dest);
      StallSlotFrame(s, r.c, r.idx);
    } else if r.FutexWakeOp? {
      KnownExactly(r.op, Word(s, r.addr2));
    } else if r.CondWait? {
      StallFrame(s, r.c);
    }
  }

  // ----- ids -----

  lemma {:induction false} AwakenIds(s: Server, ws: seq<CondWaiter>)
    ensures SameIds(s, Awaken(s, ws).0)
    decreases |ws|
  {
    if ws != [] {
      hide ResumeThread, LockMutex;
      var w := ws[0];
      ResumeFrame(s, w.core);
      ResumeSize(s, w.core);
      LockIds(ResumeThread(s, w.core), w.mutex, w.core);
      AwakenIds(LockMutex(ResumeThread(s, w.core), w.mutex, w.core).0, ws[1..]);
    }
  }

  lemma {:induction false} LockIds(s: Server, m: nat, c: Core)
    ensures SameIds(s, LockMutex(s, m, c).0)
  {
    if m < |s.mutexes| {
      LockFrame(s, m, c);
    }
  }

  lemma {:induction false} UnlockIds(s: Server, m: nat, c: Core)
    ensures SameIds(s, UnlockMutex(s, m, c).0)
  {
    if m < |s.mutexes| && s.mutexes[m].owner == Some(c) {
      UnlockFrame(s, m, c);
    }
  }

  lemma {:induction false} SyncIds(s: Server, r: Request)
    requires !OfThreads(r) && !OfFutexes(r)
    ensures SameIds(s, Handle(s, r).0)
  {
    hide StallThread, ResumeThread, LockMutex, UnlockMutex, Awaken;
    match r {
      case MutexLock(c, m, _) => LockIds(s, m, c);
      case MutexUnlock(c, m, _) => UnlockIds(s, m, c);
      case CondWait(c, v, m, time) =>
        StallFrame(s, c);
        StallSize(s, c);
        if v < |s.conds| {
          UnlockIds(SetCond(StallThread(s, c), v, s.conds[v] + [CondWaiter(c, m, time)]), m, c);
        }
      case CondSignal(_, v, _) =>
        if v < |s.conds| && s.conds[v] != [] {
          var w, s1 := s.conds[v][0], SetCond(s, v, Erased(s.conds[v]));
          ResumeFrame(s1, w.core);
          ResumeSize(s1, w.core);
          LockIds(ResumeThread(s1, w.core), w.mutex, w.core);
        }
      case CondBroadcast(_, v, _) =>
        if v < |s.conds| {
          AwakenIds(SetCond(s, v, []), s.conds[v]);
        }
      case BarrierWait(c, b, time) =>
        if b < |s.barriers| {
          BarrierFrame(s, c, b, time);
        }
      case _ =>
    }
  }

  /** The synchronization objects are as they were. */
  ghost predicate SameSync(s: Server, t: Server) {
    t.mutexes == s.mutexes && t.conds == s.conds && t.barriers == s.barriers
  }

  lemma {:induction false} WakeOpIds(s: Server, c: Core, a: int, n: int, n2: int, b: int, op: Int32)
    ensures SameIds(s, DoWakeOp(s, c, a, n, n2, b, op).0) && SameSync(s, DoWakeOp(s, c, a, n, n2, b, op).0)
  {
    hide WakeUp, Wake, NewValue, Compared, Word, WokenReplies;
    var value := NewValue(op, Word(s, b));
    if value.Some? {
      var s1 := Touch(s.(memory := s.memory[b := value.value]), a);
      WakeUpIsWake(s1, a, n);
      WakeUpIsWake(Touch(WakeUp(s1, a, n).0, b), b, n2);
    }
  }

  lemma {:induction false} FutexIds(s: Server, r: Request)
    requires OfFutexes(r)
    ensures SameIds(s, Handle(s, r).0) && (Accepted(s, r) ==> SameSync(s, Handle(s, r).0))
  {
    hide WakeUp, MoveWaiters, Enqueue, Wake, DoWakeOp, Word, WokenReplies;
    match r {
      case FutexWait(c, a, _) => EnqueueFrame(Touch(s, a), a, c);
      case FutexWake(_, a, n) => WakeUpIsWake(Touch(s, a), a, n);
      case FutexWakeOp(c, a, n, n2, b, op) => WakeOpIds(s, c, a, n, n2, b, op);
      case FutexCmpRequeue(_, a, n, n2, b, _) =>
        WakeUpIsWake(Touch(s, a), a, n);
        MoveIsRequeue(Touch(WakeUp(Touch(s, a), a, n).0, b), a, b, n2);
    }
  }

  lemma {:induction false} ThreadIds(s: Server, at: map<Core, Place>, r: Request)
    requires Inv(s, at) && Accepted(s, r) && OfThreads(r)
    requires r.Exit? || r.Spawn? ==> Front(s, r.c) == Running && LineOf(s, r.c)[0] == r.idx
    ensures Grown(s, Handle(s, r).0) && SameSync(s, Handle(s, r).0)
  {
    hide Front, DoSpawn, DoExit, DoJoin, DoStart, StallSlot, PickSlot, Roomy, Chosen, HasSlot, ThreadsOk, ObjectsOk;
    Unfold(s, at);
    hide Parked, TilesOk, JoinersOk;
    match r {
      case Start(c, j) => StartSize(s, c, j);
      case Spawn(c, j, dest) =>
        SpawnSlot(s, c, j, dest);
        SpawnFrame(s, c, j, dest);
      case Exit(c, j, time) => ExitFacts(s, c, j, time, at);
      case Join(c, j, id) => JoinFrame(s, c, j, id);
    }
  }

  /** An id, once issued, stays the id of the slot its thread was spawned on. */
  lemma {:induction false} StepKeepsIds(s: Server, at: map<Core, Place>, e: Event)
    requires Inv(s, at) && Allowed(s, e) && (e.Message? ==> Accepted(s, e.r))
    ensures Grown(s, NextServer(s, e))
  {
    hide Handle, Inv, Front, Accepted, LineOf;
    if e.Message? {
      if OfThreads(e.r) {
        ThreadIds(s, at, e.r);
      } else if OfFutexes(e.r) {
        FutexIds(s, e.r);
      } else {
        SyncIds(s, e.r);
      }
    }
  }

  // ----- one step of the master alone -----

  ghost function NextServer(s: Server, e: Event): Server {
    match e
    case Store(a, w) => s.(memory := s.memory[a := w])
    case Message(r) => Handle(s, r).0
  }

  lemma {:induction false} MemoryOk(s: Server, at: map<Core, Place>, memory: map<int, Int32>)
    requires Inv(s, at)
    ensures Inv(s.(memory := memory), at)
  {
    hide ThreadsOk;
    var t := s.(memory := memory);
    SameQueuesOk(s, t);
    hide Queue, Front;
    QuietOk(s, t, at);
  }

  lemma {:induction false} SyncServerOk(s: Server, at: map<Core, Place>, r: Request) returns (at': map<Core, Place>)
    requires Inv(s, at) && Allowed(s, Message(r)) && Accepted(s, r) && !OfThreads(r) && !OfFutexes(r)
    ensures Inv(Handle(s, r).0, at')
  {
    hide Inv, Front, LockMutex, UnlockMutex, DoCondWait, DoSignal, DoBroadcast, DoBarrierWait;
    at' := at;
    match r {
      case MutexLock(c, m, time) =>
        LockMutexOk(s, m, c, at);
        at' := if LockMutex(s, m, c).1 then at else at[c := OnMutex(m)];
      case MutexUnlock(c, m, time) =>
        UnlockMutexOk(s, m, c, at);
        var next := UnlockMutex(s, m, c).1;
        at' := if next.Some? then at - {next.value} else at;
      case CondWait(c, v, m, time) =>
        CondWaitOk(s, c, v, m, time, at);
        var next := Unlock(s.mutexes[m]).owner;
        at' := if next.Some? then at[c := OnCond(v)] - {next.value} else at[c := OnCond(v)];
      case CondSignal(c, v, time) =>
        if s.conds[v] == [] {
          NoSignal(s, c, v, time);
        } else {
          SignalOk(s, c, v, time, at);
          var w := s.conds[v][0];
          at' := if s.mutexes[w.mutex].owner.None? then at - {w.core} else at[w.core := OnMutex(w.mutex)];
        }
      case CondBroadcast(c, v, time) => at' := BroadcastOk(s, c, v, time, at);
      case BarrierWait(c, b, time) =>
        BarrierWaitOk(s, c, b, time, at);
        var woken := Arrive(s.barriers[b], c, time).1;
        at' := at[c := OnBarrier(b)] - (set d | d in woken);
      case _ => InitQuiet(s, r, at);
    }
  }

  lemma {:induction false} NoSignal(s: Server, c: Core, v: nat, time: nat)
    requires v < |s.conds| && s.conds[v] == []
    ensures DoSignal(s, c, v, time).0 == s
  {
  }

  lemma {:induction false} WakeServerOk(s: Server, at: map<Core, Place>, a: int, n: int) returns (at': map<Core, Place>)
    requires Inv(s, at)
    ensures Inv(WakeUp(Touch(s, a), a, n).0, at')
  {
    hide Inv, WakeUp, Front;
    TouchOk(s, a, at);
    WakeUpOk(Touch(s, a), a, n, at);
    var woken := WakeUp(Touch(s, a), a, n).1;
    at' := at - (set c | c in woken);
  }

  lemma {:induction false} FutexServerOk(s: Server, at: map<Core, Place>, r: Request) returns (at': map<Core, Place>)
    requires Inv(s, at) && Allowed(s, Message(r)) && Accepted(s, r) && OfFutexes(r)
    ensures Inv(Handle(s, r).0, at')
  {
    hide Inv, WakeUp, Touch, Enqueue, MoveWaiters, NewValue, Compared, KnownOp, Word, WokenReplies, Front;
    match r {
      case FutexWait(c, a, val) =>
        TouchOk(s, a, at);
        at' := at;
        if val == Word(s, a) {
          EnqueueOk(Touch(s, a), a, c, at);
          at' := at[c := OnFutex(a)];
        }
      case FutexWake(_, a, n) => at' := WakeServerOk(s, at, a, n);
      case FutexWakeOp(_, a, n, n2, b, op) =>
        KnownExactly(op, Word(s, b));
        var s1 := s.(memory := s.memory[b := NewValue(op, Word(s, b)).value]);
        MemoryOk(s, at, s1.memory);
        at' := WakeServerOk(s1, at, a, n);
        if Compared(op, Word(s, b)).value {
          at' := WakeServerOk(WakeUp(Touch(s1, a), a, n).0, at', b, n2);
        }
      case FutexCmpRequeue(_, a, n, n2, b, val) =>
        at' := at;
        if val == Word(s, a) {
          at' := WakeServerOk(s, at, a, n);
          var t := WakeUp(Touch(s, a), a, n).0;
          TouchOk(t, b, at');
          at' := MoveWaitersOk(Touch(t, b), a, b, n2, at');
        }
    }
  }

  lemma {:induction false} ThreadServerOk(s: Server, at: map<Core, Place>, r: Request) returns (at': map<Core, Place>)
    requires Inv(s, at) && Allowed(s, Message(r)) && Accepted(s, r) && OfThreads(r)
    ensures Inv(Handle(s, r).0, at')
  {
    hide Inv, Front, StallSlot, PickSlot, Roomy, Chosen, DoSpawn, DoStart, DoExit, DoJoin, LineOf, HasSlot, SlotOf;
    at' := at;
    match r {
      case Start(c, j) => StartThreadOk(s, c, j, at);
      case Spawn(c, j, dest) =>
        SpawnSlot(s, c, j, dest);
        NoneOnTileZero(s, c, j, dest);
        SpawnOk(s, c, j, dest, at);
      case Exit(c, j, time) =>
        ExitOk(s, c, j, time, at);
        at' := if Thread(c, j) in s.joiners then at - {s.joiners[Thread(c, j)].tile} else at;
      case Join(c, j, id) =>
        JoinOk(s, c, j, id, at);
        at' := if SlotOf(s, s.ids[id]).status == Idle then at else at[c := OnJoin(s.ids[id])];
    }
  }

  /** Every accepted message keeps the master's invariant, whatever mutexes the waiters of a
      condition gave up. */
  lemma {:induction false} ServerStepOk(s: Server, at: map<Core, Place>, e: Event) returns (at': map<Core, Place>)
    requires Inv(s, at) && Allowed(s, e) && (e.Message? ==> Accepted(s, e.r))
    ensures Inv(NextServer(s, e), at')
  {
    hide Inv, Handle, Accepted, Front;
    if e.Store? {
      MemoryOk(s, at, s.memory[e.addr := e.word]);
      at' := at;
    } else if OfThreads(e.r) {
      at' := ThreadServerOk(s, at, e.r);
    } else if OfFutexes(e.r) {
      at' := FutexServerOk(s, at, e.r);
    } else {
      at' := SyncServerOk(s, at, e.r);
    }
  }

  /** The master aborts exactly on the requests that it should not have been sent: none of its
      other checks ever fails. */
  lemma {:induction false} AbortsIffRefused(s: Server, at: map<Core, Place>, r: Request)
    requires Inv(s, at) && Allowed(s, Message(r))
    ensures Handle(s, r).0.aborted <==> !Accepted(s, r)
  {
    if Accepted(s, r) {
      hide Handle, Accepted, Front;
      var at' := ServerStepOk(s, at, Message(r));
    } else {
      hide Front;
      assert !r.Start?;
      RunningCore(s, r.c);
      Refused(s, at, r);
    }
  }

  lemma {:induction false} RunningCore(s: Server, c: Core)
    ensures Front(s, c) == Running ==> c < |s.tiles|
  {
  }

  // ----- every run -----

  ghost predicate InitServer(s: Server) {
    && s.tiles != []
    && (forall c :: 0 <= c < |s.tiles| ==>
          && s.tiles[c].slots != [] && s.tiles[c].run == []
          && forall j :: 0 <= j < |s.tiles[c].slots| ==>
               s.tiles[c].slots[j] == Slot(if c == 0 && j == 0 then Running else Idle, -1, 0))
    && s.starting == {} && s.ids == [] && s.counter == 0 && s.joiners == map[] && s.exited == {}
    && s.mutexes == [] && s.conds == [] && s.barriers == [] && s.futexes == map[] && !s.aborted
  }

  lemma {:induction false} InitServerOk(s: Server)
    requires InitServer(s)
    ensures Inv(s, map[])
  {
    forall c | 0 <= c < |s.tiles|
      ensures TileOk(c == 0, s.tiles[c]) && FrontStatus(c == 0, s.tiles[c]) == if c == 0 then Running else Idle
    {
    }
    hide TileOk, FrontStatus, Line;
    assert forall p :: Queue(s, p) == [];
  }

  /** The events are allowed and accepted one after another. */
  ghost predicate ServerRuns(s: Server, es: seq<Event>, t: Server)
    decreases |es|
  {
    if es == [] then s == t
    else Allowed(s, es[0]) && (es[0].Message? ==> Accepted(s, es[0].r)) && ServerRuns(NextServer(s, es[0]), es[1..], t)
  }

  /** Over any run issued ids stay, and the invariant holds. */
  lemma {:induction false} ServerRunOk(s: Server, es: seq<Event>, t: Server,
      at: map<Core, Place>) returns (at': map<Core, Place>)
    requires Inv(s, at) && ServerRuns(s, es, t)
    ensures Inv(t, at') && Grown(s, t)
    decreases |es|
  {
    hide Inv, Allowed, Accepted, NextServer;
    at' := at;
    if es != [] {
      at' := ServerStepOk(s, at, es[0]);
      StepKeepsIds(s, at, es[0]);
      at' := ServerRunOk(NextServer(s, es[0]), es[1..], t, at');
    }
  }

  /** The one place where a core waits. */
  ghost predicate WaitsOnlyIn(s: Server, c: Core, p: Place) {
    c in Queue(s, p) && NoRepeats(Queue(s, p)) && forall q :: c in Queue(s, q) ==> q == p
  }

  /** In every run a core waits in exactly one place, once, while its thread is stalled, and in
      none while its thread runs; and only stalled threads wait. */
  lemma {:induction false} StalledIffWaiting(s: Server, es: seq<Event>, t: Server, th: Thread)
    requires InitServer(s) && ServerRuns(s, es, t) && HasSlot(t, th)
    ensures SlotOf(t, th).status == Stalled ==> exists p :: WaitsOnlyIn(t, th.tile, p)
    ensures SlotOf(t, th).status == Running ==> forall q :: th.tile !in Queue(t, q)
    ensures forall q, c :: c in Queue(t, q) ==> Front(t, c) == Stalled
  {
    InitServerOk(s);
    hide Inv, InitServer, ServerRuns, HasSlot, SlotOf, Queue, Front, WaitsOnlyIn;
    var at := ServerRunOk(s, es, t, map[]);
    WaitsWhere(t, at, th);
  }

  lemma {:induction false} WaitsWhere(s: Server, at: map<Core, Place>, th: Thread)
    requires Inv(s, at) && HasSlot(s, th)
    ensures SlotOf(s, th).status == Stalled ==> exists p :: WaitsOnlyIn(s, th.tile, p)
    ensures SlotOf(s, th).status == Running ==> forall q :: th.tile !in Queue(s, q)
    ensures forall q, c :: c in Queue(s, q) ==> Front(s, c) == Stalled
  {
    hide Inv, Queue, NoRepeats, Front, HasSlot, SlotOf;
    ParkedOf(s, at);
    FrontOf(s, at, th);
    var c := th.tile;
    if SlotOf(s, th).status == Stalled {
      assert c in Queue(s, at[c]);
      assert WaitsOnlyIn(s, c, at[c]);
    }
  }

  lemma {:induction false} FrontOf(s: Server, at: map<Core, Place>, th: Thread)
    requires Inv(s, at) && HasSlot(s, th)
    ensures SlotOf(s, th).status == Running || SlotOf(s, th).status == Stalled ==>
      Front(s, th.tile) == SlotOf(s, th).status
  {
    hide Parked, JoinersOk, IdsOk, ObjectsOk, TileOk, Line, FrontStatus;
    FirstOnly(th.tile == 0, s.tiles[th.tile], th.idx);
  }

  /** A thread that runs or is stalled is the first in line. */
  lemma {:induction false} FirstOnly(home: bool, t: Tile, j: nat)
    requires TileOk(home, t) && j < |t.slots|
    ensures t.slots[j].status == Running || t.slots[j].status == Stalled ==>
      Line(home, t) != [] && Line(home, t)[0] == j && FrontStatus(home, t) == t.slots[j].status
  {
    if t.slots[j].status == Running || t.slots[j].status == Stalled {
      assert j in Line(home, t);
    }
  }

  /** In every run each core's line lists exactly its slots in use, once each; behind the first
      all are new; no two threads of a core run; and a stalled first is the one stalled last. */
  lemma {:induction false} CoresInLine(s: Server, es: seq<Event>, t: Server, c: Core)
    requires InitServer(s) && ServerRuns(s, es, t) && c < |t.tiles|
    ensures TileOk(c == 0, t.tiles[c])
    ensures var slots := t.tiles[c].slots;
      forall i, j :: 0 <= i < j < |slots| ==> !(slots[i].status == slots[j].status == Running)
  {
    InitServerOk(s);
    hide InitServer, ServerRuns, TileOk;
    var at := ServerRunOk(s, es, t, map[]);
    RunningIsFirst(c == 0, t.tiles[c]);
  }

  /** In every run a thread that somebody joins is in use; every issued id is in the table, and the
      slot of a thread that has not left carries its id; an id in the table that was not issued
      stands for the main thread's slot. */
  lemma {:induction false} JoinedAreAlive(s: Server, es: seq<Event>, t: Server)
    requires InitServer(s) && ServerRuns(s, es, t)
    ensures forall th :: th in t.joiners ==> HasSlot(t, th) && SlotOf(t, th).status != Idle
    ensures forall i :: 0 < i <= t.counter ==>
      && i < |t.ids| && HasSlot(t, t.ids[i])
      && (i !in t.exited ==> SlotOf(t, t.ids[i]).status != Idle && SlotOf(t, t.ids[i]).id == i)
    ensures forall i :: 0 <= i < |t.ids| && !(0 < i <= t.counter) ==> t.ids[i] == Thread(0, 0)
  {
    InitServerOk(s);
    hide InitServer, ServerRuns, TilesOk, Parked, HasSlot, SlotOf;
    var at := ServerRunOk(s, es, t, map[]);
  }

  /** In every run the waiters of a mutex have an owner to wait for, and no barrier that is full
      keeps anybody waiting. */
  lemma {:induction false} NobodyForgotten(s: Server, es: seq<Event>, t: Server)
    requires InitServer(s) && ServerRuns(s, es, t)
    ensures forall m :: 0 <= m < |t.mutexes| && t.mutexes[m].waiting != [] ==> t.mutexes[m].owner.Some?
    ensures forall b :: 0 <= b < |t.barriers| && t.barriers[b].waiting != [] ==>
      |t.barriers[b].waiting| < t.barriers[b].count
  {
    InitServerOk(s);
    hide InitServer, ServerRuns, ThreadsOk;
    var at := ServerRunOk(s, es, t, map[]);
    assert forall m :: 0 <= m < |t.mutexes| ==> MutexOk(t.mutexes[m]);
  }

  // ----- every run with its clients -----

  ghost predicate Init(y: System) {
    && InitServer(y.server) && |y.clients| == |y.server.tiles|
    && (forall c :: 0 <= c < |y.clients| ==> y.clients[c] == Ready({}))
  }

  lemma {:induction false} InitOk(y: System)
    requires Init(y)
    ensures SysOk(y.server, y.clients, map[], None)
  {
    InitServerOk(y.server);
    hide Inv;
  }

  ghost predicate Runs(y: System, es: seq<Event>, z: System)
    decreases |es|
  {
    if es == [] then y == z
    else Enabled(y, es[0]) && (es[0].Message? ==> Accepted(y.server, es[0].r)) && Runs(Next(y, es[0]), es[1..], z)
  }

  /** Every signal of the run is careful. */
  ghost predicate AllCareful(y: System, es: seq<Event>, z: System)
    requires Runs(y, es, z)
    decreases |es|
  {
    es == [] || (Careful(y.server, es[0]) && AllCareful(Next(y, es[0]), es[1..], z))
  }

  /** In every state of the run each waiter's record names the mutex that its client gave up. */
  ghost predicate AllRecorded(y: System, es: seq<Event>, z: System)
    requires Runs(y, es, z)
    decreases |es|
  {
    Recorded(y.server.conds, y.clients) && (es == [] || AllRecorded(Next(y, es[0]), es[1..], z))
  }

  lemma {:induction false} RunOk(y: System, es: seq<Event>, z: System,
      at: map<Core, Place>) returns (at': map<Core, Place>)
    requires SysOk(y.server, y.clients, at, None) && Runs(y, es, z) && AllCareful(y, es, z)
    ensures SysOk(z.server, z.clients, at', None)
    decreases |es|
  {
    hide SysOk, Enabled, Accepted, Next, Careful;
    at' := at;
    if es != [] {
      at' := StepOk(y, at, es[0]);
      at' := RunOk(Next(y, es[0]), es[1..], z, at');
    }
  }

  lemma {:induction false} DeliverOthers(cl: seq<Client>, rs: seq<Reply>, exited: set<int>, d: Core)
    requires d < |cl| && forall i :: 0 <= i < |rs| ==> rs[i].core != d
    ensures DeliverAll(cl, rs, exited)[d] == cl[d]
    decreases |rs|
  {
    if rs != [] {
      DeliverOthers(if rs[0].core >= |cl| then cl else cl[rs[0].core := Deliver(cl[rs[0].core], rs[0].body, exited)],
        rs[1..], exited, d);
    }
  }

  /** A signal takes the first waiter's record off the list, and answers at most it and the sender. */
  lemma {:induction false} SignalFrame(s: Server, c: Core, v: nat, time: nat)
    requires v < |s.conds| && s.conds[v] != [] && s.conds[v][0].mutex < |s.mutexes|
    ensures var (t, rs) := DoSignal(s, c, v, time);
      && t.conds == s.conds[v := Erased(s.conds[v])]
      && forall i :: 0 <= i < |rs| ==> rs[i].core == c || rs[i].core == s.conds[v][0].core
  {
    hide LockMutex, ResumeThread, Erased;
    var w, s1 := s.conds[v][0], SetCond(s, v, Erased(s.conds[v]));
    ResumeFrame(s1, w.core);
    LockFrame(ResumeThread(s1, w.core), w.mutex, w.core);
  }

  lemma {:induction false} WaitersApart(s: Server, at: map<Core, Place>, v: nat, i: nat)
    requires Inv(s, at) && v < |s.conds| && 0 < i < |s.conds[v]|
    ensures s.conds[v][i].core != s.conds[v][0].core
  {
    hide Inv, Front;
    ParkedOf(s, at);
    CondQueue(s, v);
    assert NoRepeats(Queue(s, OnCond(v)));
    hide Queue;
    assert Cores(s.conds[v])[0] != Cores(s.conds[v])[i];
  }

  lemma {:induction false} WaiterIsCore(s: Server, at: map<Core, Place>, v: nat, i: nat)
    requires Inv(s, at) && v < |s.conds| && 0 <= i < |s.conds[v]|
    ensures s.conds[v][i].core in at && s.conds[v][i].core < |s.tiles|
    ensures s.conds[v][i].mutex < |s.mutexes|
  {
    hide ThreadsOk, Queue, Front;
    ParkedOf(s, at);
    CondQueue(s, v);
    assert Cores(s.conds[v])[i] in Queue(s, OnCond(v));
    Whereabouts(s, at, s.conds[v][i].core);
  }

  /** A signal keeps the records of the other waiters right only if all gave up one mutex. */
  lemma {:induction false} SignalSpoils(y: System, at: map<Core, Place>, e: Event)
    requires SysOk(y.server, y.clients, at, None) && Enabled(y, e) && e.Message? && e.r.CondSignal?
    requires Accepted(y.server, e.r)
    requires Recorded(Next(y, e).server.conds, Next(y, e).clients)
    ensures Careful(y.server, e)
  {
    var s, cl, c, v := y.server, y.clients, e.r.c, e.r.v;
    hide SysOk, Allowed, Recorded, DoSignal, DeliverAll, Sending, OneMutex;
    if s.conds[v] != [] {
      SpoiledBy(s, cl, at, c, v, e.r.time, cl[c := Sending(s, e.r, cl[c].held)]);
    } else {
      NoMutex();
    }
  }

  lemma {:induction false} NoMutex()
    ensures OneMutex([])
  {
  }

  lemma {:induction false} SpoiledBy(s: Server, cl: seq<Client>, at: map<Core, Place>, c: Core, v: nat, time: nat,
      cl1: seq<Client>)
    requires SysOk(s, cl, at, None) && c < |cl| == |cl1| && cl[c].Ready? && v < |s.conds| && s.conds[v] != []
    requires forall d :: 0 <= d < |cl| && d != c ==> cl1[d] == cl[d]
    requires var (t, rs) := DoSignal(s, c, v, time); Recorded(t.conds, DeliverAll(cl1, rs, t.exited))
    ensures OneMutex(s.conds[v])
  {
    var (t, rs) := DoSignal(s, c, v, time);
    hide SysOk, Inv, Recorded, DoSignal, DeliverAll, Erased, OneMutex;
    SysParts(s, cl, at, c);
    WaiterIsCore(s, at, v, 0);
    SignalFrame(s, c, v, time);
    forall i | 0 <= i < |s.conds[v]|
      ensures s.conds[v][i].core < |cl|
      ensures i > 0 ==> DeliverAll(cl1, rs, t.exited)[s.conds[v][i].core] == cl[s.conds[v][i].core]
    {
      WaiterUntold(s, at, cl, cl1, c, v, i, rs, t.exited);
    }
    ErasedSpoils(s.conds, cl, DeliverAll(cl1, rs, t.exited), v);
  }

  /** A signal tells none of the waiters behind the first. */
  lemma {:induction false} WaiterUntold(s: Server, at: map<Core, Place>, cl: seq<Client>, cl1: seq<Client>, c: Core,
      v: nat, i: nat, rs: seq<Reply>, exited: set<int>)
    requires Inv(s, at) && |cl| == |s.tiles| == |cl1| && c !in at && v < |s.conds| && i < |s.conds[v]|
    requires forall d :: 0 <= d < |cl| && d != c ==> cl1[d] == cl[d]
    requires forall k :: 0 <= k < |rs| ==> rs[k].core == c || rs[k].core == s.conds[v][0].core
    ensures s.conds[v][i].core < |cl|
    ensures i > 0 ==> DeliverAll(cl1, rs, exited)[s.conds[v][i].core] == cl[s.conds[v][i].core]
  {
    hide Inv, DeliverAll;
    WaiterIsCore(s, at, v, i);
    if i > 0 {
      WaitersApart(s, at, v, i);
      DeliverOthers(cl1, rs, exited, s.conds[v][i].core);
    }
  }

  lemma {:induction false} SysParts(s: Server, cl: seq<Client>, at: map<Core, Place>, c: Core)
    requires SysOk(s, cl, at, None) && c < |cl| && cl[c].Ready?
    ensures Inv(s, at) && Recorded(s.conds, cl) && |cl| == |s.tiles| && c !in at
  {
    hide Inv, Recorded, Owned;
  }

  /** In every run: all records are right at all times exactly when every signal was careful.  A
      broadcast and a wait may mix mutexes. */
  lemma {:induction false} RecordedExactly(y: System, es: seq<Event>, z: System, at: map<Core, Place>)
    requires SysOk(y.server, y.clients, at, None) && Runs(y, es, z)
    ensures AllRecorded(y, es, z) <==> AllCareful(y, es, z)
    decreases |es|
  {
    assert Recorded(y.server.conds, y.clients);
    if es != [] {
      hide SysOk, Enabled, Accepted, Next, Recorded;
      var e := es[0];
      if Careful(y.server, e) {
        var at' := StepOk(y, at, e);
        RecordedExactly(Next(y, e), es[1..], z, at');
      } else if AllRecorded(y, es, z) {
        RecordedNow(Next(y, e), es[1..], z);
        SignalSpoils(y, at, e);
      }
    }
  }

  lemma {:induction false} RecordedNow(y: System, es: seq<Event>, z: System)
    requires Runs(y, es, z) && AllRecorded(y, es, z)
    ensures Recorded(y.server.conds, y.clients)
  {
  }

  /** From the start of the simulation. */
  lemma {:induction false} WaitersRecordedExactly(y: System, es: seq<Event>, z: System)
    requires Init(y) && Runs(y, es, z)
    ensures AllRecorded(y, es, z) <==> AllCareful(y, es, z)
  {
    InitOk(y);
    hide Init, Runs, SysOk;
    RecordedExactly(y, es, z, map[]);
  }

  /** In every run whose signals are careful no client gets a reply that it does not wait for or does
      not expect; the blocked ones are those that wait somewhere, for what they asked; and a client holds a mutex, from
      the grant to the release, exactly while it is the recorded owner. */
  lemma {:induction false} ClientsServed(y: System, es: seq<Event>, z: System, c: Core)
    requires Init(y) && Runs(y, es, z) && AllCareful(y, es, z) && c < |z.clients|
    ensures !z.clients[c].Broken?
    ensures z.clients[c].Waiting? <==> exists p :: c in Queue(z.server, p)
    ensures forall p :: c in Queue(z.server, p) ==> Fits(z.server, z.clients[c].want, p)
    ensures forall m: nat :: m in z.clients[c].held <==> OwnerIs(z.server.mutexes, m, c)
  {
    InitOk(y);
    hide Init, Runs, Fits, Queue, SysOk, OwnerIs;
    var at := RunOk(y, es, z, map[]);
    Blocks(z.server, z.clients, at, c);
    Holds(z.server, z.clients, at, c);
  }

  lemma {:induction false} Blocks(s: Server, cl: seq<Client>, at: map<Core, Place>, c: Core)
    requires SysOk(s, cl, at, None) && c < |cl|
    ensures !cl[c].Broken? && (cl[c].Waiting? <==> exists p :: c in Queue(s, p))
    ensures forall p :: c in Queue(s, p) ==> Fits(s, cl[c].want, p)
  {
    hide Fits, Queue, Front, TilesOk, JoinersOk, IdsOk, ObjectsOk, Recorded, Owned, NoRepeats;
    NotBroken(s, cl, at, None);
    if cl[c].Waiting? {
      assert c in Queue(s, at[c]);
    }
  }

  lemma {:induction false} Holds(s: Server, cl: seq<Client>, at: map<Core, Place>, c: Core)
    requires SysOk(s, cl, at, None) && c < |cl|
    ensures !cl[c].Broken? && forall m: nat :: m in cl[c].held <==> OwnerIs(s.mutexes, m, c)
  {
    hide Inv, Fits, Recorded;
    NotBroken(s, cl, at, None);
    forall m: nat
      ensures m in cl[c].held <==> OwnerIs(s.mutexes, m, c)
    {
      assert Has(cl[c], m) <==> OwnerIs(s.mutexes, m, c);
    }
  }
}
