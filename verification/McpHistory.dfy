/** What the master keeps of threads that have left, over whole runs: when each slot was last left,
    which ids have left, and which slots the spawned threads were given. */
module McpHistory {
  import opened Options
  import opened FutexWords
  import opened SyncObjects
  import opened Threads
  import opened MasterControl
  import opened McpInvariant
  import opened McpThreads
  import opened McpClients
  import opened McpRuns
  import opened McpOrder

  // ----- times -----

  ghost function TileTimes(t: Tile): seq<int> {
    seq(|t.slots|, j requires 0 <= j < |t.slots| => t.slots[j].completed)
  }

  /** When each slot was left last. */
  ghost function Times(s: Server): seq<seq<int>> {
    seq(|s.tiles|, c requires 0 <= c < |s.tiles| => TileTimes(s.tiles[c]))
  }

  ghost predicate SameHistory(s: Server, t: Server) {
    Times(t) == Times(s) && t.exited == s.exited
  }

  lemma {:induction false} StatusOnly(s: Server, c: Core, x: Tile)
    requires c < |s.tiles| && TileTimes(x) == TileTimes(s.tiles[c])
    ensures Times(s.(tiles := s.tiles[c := x])) == Times(s)
  {
  }

  lemma {:induction false} StallKeeps(s: Server, c: Core, j: int)
    ensures SameHistory(s, StallSlot(s, c, j)) && SameHistory(s, ResumeSlot(s, c, j))
  {
    if c < |s.tiles| && 0 <= j < |s.tiles[c].slots| {
      assert TileTimes(SetStalled(s.tiles[c], j)) == TileTimes(s.tiles[c]);
      assert TileTimes(SetRunning(s.tiles[c], j)) == TileTimes(s.tiles[c]);
      StatusOnly(s, c, SetStalled(s.tiles[c], j));
      StatusOnly(s, c, SetRunning(s.tiles[c], j));
    }
  }

  lemma {:induction false} ThreadKeeps(s: Server, c: Core)
    ensures SameHistory(s, StallThread(s, c)) && SameHistory(s, ResumeThread(s, c))
  {
    hide StallSlot, ResumeSlot, SameHistory;
    Itself(s, Abort(s));
    if c < |s.tiles| {
      StallKeeps(s, c, FirstWith(s.tiles[c].slots, Running, 0));
      StallKeeps(s, c, s.tiles[c].last);
    }
  }

  /** Nothing but tiles and exits makes the history. */
  lemma {:induction false} Itself(s: Server, t: Server)
    requires t.tiles == s.tiles && t.exited == s.exited
    ensures SameHistory(s, t)
  {
  }

  lemma {:induction false} LockKeeps(s: Server, m: nat, c: Core)
    ensures SameHistory(s, LockMutex(s, m, c).0) && SameHistory(s, UnlockMutex(s, m, c).0)
  {
    hide StallThread, ResumeThread, Unlock, Lock, Times;
    SameTimes(s, Abort(s));
    ThreadKeeps(s, c);
    if m < |s.mutexes| {
      StallFrame(s, c);
      SameTimes(StallThread(s, c), SetMutex(StallThread(s, c), m, Lock(s.mutexes[m], c)));
      SameTimes(s, SetMutex(s, m, Lock(s.mutexes[m], c)));
      var x := Unlock(s.mutexes[m]);
      SameTimes(s, SetMutex(s, m, x));
      if x.owner.Some? {
        ThreadKeeps(s, x.owner.value);
        ResumeFrame(s, x.owner.value);
        SameTimes(ResumeThread(s, x.owner.value), SetMutex(ResumeThread(s, x.owner.value), m, x));
      }
    }
  }

  lemma {:induction false} AwakenKeeps(s: Server, ws: seq<CondWaiter>)
    ensures SameHistory(s, Awaken(s, ws).0)
    decreases |ws|
  {
    hide ResumeThread, LockMutex;
    if ws != [] {
      ThreadKeeps(s, ws[0].core);
      var s1 := ResumeThread(s, ws[0].core);
      LockKeeps(s1, ws[0].mutex, ws[0].core);
      AwakenKeeps(LockMutex(s1, ws[0].mutex, ws[0].core).0, ws[1..]);
    }
  }

  lemma {:induction false} ResumeAllKeeps(s: Server, cs: seq<Core>)
    ensures SameHistory(s, ResumeAll(s, cs))
    decreases |cs|
  {
    hide ResumeThread;
    if cs != [] {
      ThreadKeeps(s, cs[0]);
      ResumeAllKeeps(ResumeThread(s, cs[0]), cs[1..]);
    }
  }

  lemma {:induction false} DequeueKeeps(s: Server, a: int)
    requires QueueOf(s.futexes, a) != []
    ensures SameHistory(s, Dequeue(s, a))
  {
    var q := QueueOf(s.futexes, a);
    ThreadKeeps(s.(futexes := s.futexes[a := q[1..]]), q[0]);
    hide ResumeThread;
  }

  lemma {:induction false} EnqueueKeeps(s: Server, a: int, c: Core)
    ensures SameHistory(s, Enqueue(s, a, c))
  {
    ThreadKeeps(s, c);
    hide StallThread;
  }

  lemma {:induction false} WakeUpKeeps(s: Server, a: int, n: int)
    ensures SameHistory(s, WakeUp(s, a, n).0)
    decreases if n > 0 then n else 0
  {
    hide Dequeue;
    if n > 0 && QueueOf(s.futexes, a) != [] {
      DequeueKeeps(s, a);
      WakeUpKeeps(Dequeue(s, a), a, n - 1);
    }
  }

  lemma {:induction false} MoveKeeps(s: Server, a: int, b: int, n: int)
    ensures SameHistory(s, MoveWaiters(s, a, b, n).0)
    decreases if n > 0 then n else 0
  {
    hide Dequeue, Enqueue;
    var q := QueueOf(s.futexes, a);
    if n > 0 && q != [] {
      DequeueKeeps(s, a);
      EnqueueKeeps(Dequeue(s, a), b, q[0]);
      MoveKeeps(Enqueue(Dequeue(s, a), b, q[0]), a, b, n - 1);
    }
  }

  lemma {:induction false} SyncKeeps(s: Server, r: Request)
    requires !OfFutexes(r) && !OfThreads(r)
    ensures SameHistory(s, Handle(s, r).0)
  {
    hide LockMutex, UnlockMutex, StallThread, ResumeThread, Awaken, ResumeAll, Erased, Times, Arrive;
    match r {
      case MutexLock(c, m, _) => LockKeeps(s, m, c);
      case MutexUnlock(c, m, _) => LockKeeps(s, m, c);
      case CondWait(c, v, m, time) => WaitKeeps(s, c, v, m, time);
      case CondSignal(c, v, time) => SignalKeeps(s, c, v, time);
      case CondBroadcast(c, v, _) =>
        if v < |s.conds| {
          SameTimes(s, SetCond(s, v, []));
          AwakenKeeps(SetCond(s, v, []), s.conds[v]);
        } else {
          SameTimes(s, Abort(s));
        }
      case BarrierWait(c, b, time) => BarrierKeeps(s, c, b, time);
      case _ => SameTimes(s, Handle(s, r).0);
    }
  }

  lemma {:induction false} SameTimes(s: Server, t: Server)
    requires t.tiles == s.tiles
    ensures Times(t) == Times(s)
  {
  }

  lemma {:induction false} WaitKeeps(s: Server, c: Core, v: nat, m: nat, time: nat)
    ensures SameHistory(s, DoCondWait(s, c, v, m, time).0)
  {
    hide UnlockMutex, StallThread, Times;
    SameTimes(s, Abort(s));
    if v < |s.conds| && m < |s.mutexes| {
      ThreadKeeps(s, c);
      StallFrame(s, c);
      var t := SetCond(StallThread(s, c), v, s.conds[v] + [CondWaiter(c, m, time)]);
      SameTimes(StallThread(s, c), t);
      LockKeeps(t, m, c);
    }
  }

  lemma {:induction false} SignalKeeps(s: Server, c: Core, v: nat, time: nat)
    ensures SameHistory(s, DoSignal(s, c, v, time).0)
  {
    hide LockMutex, ResumeThread, Erased, Times;
    SameTimes(s, Abort(s));
    if v < |s.conds| && s.conds[v] != [] {
      var w, s1 := s.conds[v][0], SetCond(s, v, Erased(s.conds[v]));
      SameTimes(s, s1);
      ThreadKeeps(s1, w.core);
      LockKeeps(ResumeThread(s1, w.core), w.mutex, w.core);
    }
  }

  lemma {:induction false} BarrierKeeps(s: Server, c: Core, b: nat, time: nat)
    ensures SameHistory(s, DoBarrierWait(s, c, b, time).0)
  {
    hide ResumeAll, StallThread, Arrive, Times;
    SameTimes(s, Abort(s));
    if b < |s.barriers| && |s.barriers[b].waiting| + 1 <= s.barriers[b].count {
      var (x, woken) := Arrive(s.barriers[b], c, time);
      ThreadKeeps(s, c);
      var t := StallThread(s, c).(barriers := s.barriers[b := x]);
      SameTimes(StallThread(s, c), t);
      ResumeAllKeeps(t, woken);
    }
  }

  lemma {:induction false} FutexKeeps(s: Server, r: Request)
    requires OfFutexes(r)
    ensures SameHistory(s, Handle(s, r).0)
  {
    hide WakeUp, MoveWaiters, Enqueue, Word, WokenReplies, NewValue, Compared, Times;
    SameTimes(s, Abort(s));
    match r {
      case FutexWait(c, a, _) =>
        SameTimes(s, Touch(s, a));
        EnqueueKeeps(Touch(s, a), a, c);
      case FutexWake(_, a, n) =>
        SameTimes(s, Touch(s, a));
        WakeUpKeeps(Touch(s, a), a, n);
      case FutexWakeOp(c, a, n, n2, b, op) => WakeOpKeeps(s, c, a, n, n2, b, op);
      case FutexCmpRequeue(_, a, n, n2, b, _) =>
        SameTimes(s, Touch(s, a));
        WakeUpKeeps(Touch(s, a), a, n);
        var t := WakeUp(Touch(s, a), a, n).0;
        SameTimes(t, Touch(t, b));
        MoveKeeps(Touch(t, b), a, b, n2);
    }
  }

  lemma {:induction false} WakeOpKeeps(s: Server, c: Core, a: int, n: int, n2: int, b: int, op: Int32)
    ensures SameHistory(s, DoWakeOp(s, c, a, n, n2, b, op).0)
  {
    hide WakeUp, Word, WokenReplies, NewValue, Compared, Times;
    SameTimes(s, Abort(s));
    var value := NewValue(op, Word(s, b));
    if value.Some? {
      var s1 := Touch(s.(memory := s.memory[b := value.value]), a);
      SameTimes(s, s1);
      WakeUpKeeps(s1, a, n);
      var t := WakeUp(s1, a, n).0;
      SameTimes(t, Touch(t, b));
      WakeUpKeeps(Touch(t, b), b, n2);
    }
  }

  lemma {:induction false} ScheduleKeeps(s: Server, c: Core, d: Thread)
    ensures SameHistory(s, ScheduleThread(s, c, d))
  {
    if d.tile < |s.tiles| && d.idx < |s.tiles[d.tile].slots| {
      var x := Schedule(s.tiles[d.tile], d.idx, s.counter);
      assert TileTimes(x) == TileTimes(s.tiles[d.tile]);
      StatusOnly(s, d.tile, x);
    }
    hide Startable, Schedule, TileTimes;
  }

  lemma {:induction false} WaiterKeeps(s: Server, th: Thread, time: nat)
    ensures SameHistory(s, WakeUpWaiter(s, th, time).0) && |WakeUpWaiter(s, th, time).0.tiles| == |s.tiles|
  {
    if th in s.joiners {
      StallKeeps(s, s.joiners[th].tile, s.joiners[th].idx);
    }
  }

  lemma {:induction false} LineKeeps(s: Server, c: Core)
    requires c < |s.tiles|
    ensures SameHistory(s, NextInLine(s, c).0)
  {
    if s.tiles[c].run != [] {
      StallKeeps(s, c, s.tiles[c].run[0]);
    }
    hide ResumeSlot, FirstWith;
  }

  lemma {:induction false} SpawnKeeps(s: Server, c: Core, j: nat, dest: Option<nat>)
    ensures SameHistory(s, DoSpawn(s, c, j, dest).0)
  {
    hide StallSlot, PickSlot, ScheduleThread, ResumeThread, NewThreadId, Times;
    SameTimes(s, Abort(s));
    if c < |s.tiles| {
      StallKeeps(s, c, j);
      StallSlotFrame(s, c, j);
      var s1 := StallSlot(s, c, j);
      SameTimes(s1, Abort(s1));
      var th := PickSlot(s1, c, dest);
      if th.Some? {
        IdKeeps(s1, th.value);
        ScheduleKeeps(NewThreadId(s1, th.value), c, th.value);
        ThreadKeeps(ScheduleThread(NewThreadId(s1, th.value), c, th.value), c);
      }
    }
  }

  lemma {:induction false} IdKeeps(s: Server, th: Thread)
    ensures SameHistory(s, NewThreadId(s, th))
  {
  }

  lemma {:induction false} JoinKeeps(s: Server, c: Core, j: nat, id: nat)
    ensures SameHistory(s, DoJoin(s, c, j, id).0)
  {
    hide StallThread, WakeUpWaiter, Times;
    SameTimes(s, Abort(s));
    if id < |s.ids| && s.ids[id].tile < |s.tiles| && s.ids[id].idx < |s.tiles[s.ids[id].tile].slots| {
      var th := s.ids[id];
      ThreadKeeps(s, c);
      var s1 := StallThread(s, c).(joiners := s.joiners[th := Thread(c, j)]);
      SameTimes(StallThread(s, c), s1);
      WaiterKeeps(s1, th, s.tiles[th.tile].slots[th.idx].completed);
    }
  }

  lemma {:induction false} StartKeeps(s: Server, c: Core, j: nat)
    ensures SameHistory(s, DoStart(s, c, j).0)
  {
    StallKeeps(s, c, j);
    hide ResumeSlot;
  }

  /** Only an exit makes history. */
  lemma {:induction false} OthersKeep(s: Server, r: Request)
    requires !r.Exit?
    ensures SameHistory(s, Handle(s, r).0)
  {
    if OfFutexes(r) {
      hide SameHistory, Handle;
      FutexKeeps(s, r);
    } else if OfThreads(r) {
      hide SameHistory, DoSpawn, DoStart, DoJoin, DoExit;
      match r {
        case Spawn(c, j, dest) => SpawnKeeps(s, c, j, dest);
        case Start(c, j) => StartKeeps(s, c, j);
        case Join(c, j, id) => JoinKeeps(s, c, j, id);
      }
    } else {
      hide SameHistory, Handle;
      SyncKeeps(s, r);
    }
  }

  /** An exit records its time for the slot, and the id. */
  lemma {:induction false} ExitMakes(s: Server, c: Core, j: nat, time: nat)
    requires HasSlot(s, Thread(c, j)) && SlotOf(s, Thread(c, j)).status == Running
    ensures var t := DoExit(s, c, j, time).0;
      && Times(t) == Times(s)[c := Times(s)[c][j := time]]
      && t.exited == s.exited + {SlotOf(s, Thread(c, j)).id}
  {
    var x := Finish(s.tiles[c], j, time);
    assert TileTimes(x) == TileTimes(s.tiles[c])[j := time];
    var s1 := s.(tiles := s.tiles[c := x], exited := s.exited + {s.tiles[c].slots[j].id});
    assert Times(s1) == Times(s)[c := Times(s)[c][j := time]];
    hide Finish, Times, TileTimes, WakeUpWaiter, NextInLine;
    WaiterKeeps(s1, Thread(c, j), time);
    LineKeeps(WakeUpWaiter(s1, Thread(c, j), time).0, c);
  }

  // ----- runs -----

  ghost predicate Leaves(e: Event, th: Thread) {
    e.Message? && e.r.Exit? && e.r.c == th.tile && e.r.idx == th.idx
  }

  /** When a slot was left last in a run, or `time` if it was not. */
  ghost function LastExit(es: seq<Event>, th: Thread, time: nat): nat {
    if es == [] then time else LastExit(es[1..], th, if Leaves(es[0], th) then es[0].r.time else time)
  }

  ghost function LeaverOf(s: Server, e: Event): set<int> {
    if e.Message? && e.r.Exit? && HasSlot(s, Thread(e.r.c, e.r.idx)) then {SlotOf(s, Thread(e.r.c, e.r.idx)).id} else {}
  }

  /** The ids of the threads that leave in a run. */
  ghost function Leavers(s: Server, es: seq<Event>): set<int>
    decreases |es|
  {
    if es == [] then {} else LeaverOf(s, es[0]) + Leavers(NextServer(s, es[0]), es[1..])
  }

  lemma {:induction false} EventMakes(s: Server, at: map<Core, Place>, e: Event, th: Thread)
    requires Inv(s, at) && Allowed(s, e) && HasSlot(s, th)
    ensures var t := NextServer(s, e);
      && HasSlot(t, th) && t.exited == s.exited + LeaverOf(s, e)
      && SlotOf(t, th).completed == if Leaves(e, th) then e.r.time else SlotOf(s, th).completed
  {
    hide Inv, Handle, Times, HasSlot, SlotOf;
    var t := NextServer(s, e);
    TimesSlot(s, th);
    TimesSlot(t, th);
    if e.Message? && e.r.Exit? {
      LeaveMakes(s, e.r, th);
    } else if e.Message? {
      hide Allowed;
      OthersKeep(s, e.r);
    } else {
      SameTimes(s, t);
    }
  }

  lemma {:induction false} LeaveMakes(s: Server, r: Request, th: Thread)
    requires r.Exit? && Allowed(s, Message(r)) && HasSlot(s, th)
    ensures var t := Handle(s, r).0;
      && HasSlot(t, th) && t.exited == s.exited + LeaverOf(s, Message(r))
      && SlotOf(t, th).completed == if Leaves(Message(r), th) then r.time else SlotOf(s, th).completed
  {
    hide DoExit, Times, HasSlot, SlotOf, Front, LineOf;
    RunningSlot(s, r.c, r.idx);
    ExitMakes(s, r.c, r.idx, r.time);
    TimesSlot(s, th);
    TimesSlot(s, Thread(r.c, r.idx));
    TimesSlot(Handle(s, r).0, th);
  }

  lemma {:induction false} RunningSlot(s: Server, c: Core, j: nat)
    requires Front(s, c) == Running && LineOf(s, c)[0] == j
    ensures HasSlot(s, Thread(c, j)) && SlotOf(s, Thread(c, j)).status == Running
  {
  }

  lemma {:induction false} TimesSlot(s: Server, th: Thread)
    ensures HasSlot(s, th) <==> th.tile < |Times(s)| && th.idx < |Times(s)[th.tile]|
    ensures HasSlot(s, th) ==> Times(s)[th.tile][th.idx] == SlotOf(s, th).completed
  {
  }

  lemma {:induction false} RunMakes(s: Server, at: map<Core, Place>, es: seq<Event>, t: Server, th: Thread)
    requires Inv(s, at) && ServerRuns(s, es, t) && HasSlot(s, th)
    ensures HasSlot(t, th) && SlotOf(t, th).completed == LastExit(es, th, SlotOf(s, th).completed)
    ensures t.exited == s.exited + Leavers(s, es)
    decreases |es|
  {
    hide Inv, Allowed, Accepted, NextServer, LeaverOf, HasSlot, SlotOf;
    if es != [] {
      EventMakes(s, at, es[0], th);
      var at' := ServerStepOk(s, at, es[0]);
      RunMakes(NextServer(s, es[0]), at', es[1..], t, th);
    }
  }

  /** In every run each slot's recorded time, with which a later join is answered, is that of the last
      exit from it, and the ids recorded as left are exactly those of the threads that left. */
  lemma {:induction false} ExitsRecorded(s: Server, es: seq<Event>, t: Server, th: Thread)
    requires InitServer(s) && ServerRuns(s, es, t) && HasSlot(s, th)
    ensures HasSlot(t, th) && SlotOf(t, th).completed == LastExit(es, th, 0)
    ensures t.exited == Leavers(s, es)
  {
    InitServerOk(s);
    assert SlotOf(s, th).completed == 0 && s.exited == {};
    hide InitServer, ServerRuns, Inv, HasSlot, SlotOf;
    RunMakes(s, map[], es, t, th);
  }

  // ----- spawns -----

  ghost function Spawners(es: seq<Event>): seq<Core> {
    if es == [] then []
    else (if es[0].Message? && es[0].r.Spawn? then [es[0].r.c] else []) + Spawners(es[1..])
  }

  /** What a run answers to its spawns. */
  ghost function SpawnAnswers(s: Server, es: seq<Event>): seq<Reply>
    decreases |es|
  {
    if es == [] then []
    else
      (if es[0].Message? && es[0].r.Spawn? then EventReplies(s, es[0]) else [])
      + SpawnAnswers(NextServer(s, es[0]), es[1..])
  }

  /** The answers that name the threads under the ids from `n + 1` on. */
  ghost function Named(ids: seq<Thread>, cs: seq<Core>, n: nat): seq<Reply>
    requires cs != [] ==> n + |cs| < |ids|
  {
    seq(|cs|, i requires 0 <= i < |cs| => Reply(cs[i], Spawned(ids[n + 1 + i], n + 1 + i)))
  }

  lemma {:induction false} EventSpawns(s: Server, at: map<Core, Place>, e: Event)
    requires Inv(s, at) && Allowed(s, e) && (e.Message? ==> Accepted(s, e.r))
    ensures var t := NextServer(s, e);
      if e.Message? && e.r.Spawn? then
        t.counter == s.counter + 1 < |t.ids| == (if |s.ids| <= t.counter then 2 * t.counter else |s.ids|)
        && EventReplies(s, e) == [Reply(e.r.c, Spawned(t.ids[t.counter], t.counter))]
      else t.counter == s.counter && t.ids == s.ids
  {
    hide Inv, Front, LineOf;
    if e.Message? {
      if e.r.Spawn? {
        hide Handle, Roomy, Chosen;
        SpawnGoes(s, at, e.r.c, e.r.idx, e.r.dest);
      } else if OfThreads(e.r) {
        OtherThreads(s, at, e.r);
      } else if OfFutexes(e.r) {
        hide Handle, Accepted;
        FutexIds(s, e.r);
      } else {
        hide Handle, Accepted;
        SyncIds(s, e.r);
      }
    }
  }

  lemma {:induction false} OtherThreads(s: Server, at: map<Core, Place>, r: Request)
    requires Inv(s, at) && Allowed(s, Message(r)) && Accepted(s, r) && OfThreads(r) && !r.Spawn?
    ensures SameIds(s, Handle(s, r).0)
  {
    hide Front, LineOf, DoExit, DoJoin, DoStart, HasSlot, ThreadsOk, ObjectsOk;
    Unfold(s, at);
    hide Parked, TilesOk, JoinersOk;
    match r {
      case Start(c, j) => StartSize(s, c, j);
      case Exit(c, j, time) => ExitFacts(s, c, j, time, at);
      case Join(c, j, id) => JoinFrame(s, c, j, id);
    }
  }

  lemma {:induction false} RunSpawns(s: Server, at: map<Core, Place>, es: seq<Event>, t: Server)
    requires Inv(s, at) && ServerRuns(s, es, t)
    ensures t.counter == s.counter + |Spawners(es)| && (Spawners(es) != [] ==> t.counter < |t.ids|)
    ensures SpawnAnswers(s, es) == Named(t.ids, Spawners(es), s.counter)
    decreases |es|
  {
    hide Inv, Allowed, Accepted, NextServer, EventReplies, Named, Grown;
    if es == [] {
      NoneNamed(t.ids, s.counter);
    } else {
      var e, s1 := es[0], NextServer(s, es[0]);
      EventSpawns(s, at, e);
      var at' := ServerStepOk(s, at, e);
      RunSpawns(s1, at', es[1..], t);
      if e.Message? && e.r.Spawn? {
        var _ := ServerRunOk(s1, es[1..], t, at');
        IdStays(s1, t);
        FirstNamed(t.ids, e.r.c, Spawners(es[1..]), s.counter);
      } else {
        assert [] + Spawners(es[1..]) == Spawners(es[1..]);
        assert [] + SpawnAnswers(s1, es[1..]) == SpawnAnswers(s1, es[1..]);
      }
    }
  }

  lemma {:induction false} IdStays(s: Server, t: Server)
    requires Grown(s, t) && s.counter < |s.ids|
    ensures s.counter < |t.ids| && t.ids[s.counter] == s.ids[s.counter]
  {
  }

  lemma {:induction false} NoneNamed(ids: seq<Thread>, n: nat)
    ensures Named(ids, [], n) == []
  {
  }

  lemma {:induction false} FirstNamed(ids: seq<Thread>, c: Core, cs: seq<Core>, n: nat)
    requires n + 1 + |cs| < |ids|
    ensures Named(ids, [c] + cs, n) == [Reply(c, Spawned(ids[n + 1], n + 1))] + Named(ids, cs, n + 1)
  {
  }

  /** In every run the n-th spawn, counted from 1, is answered exactly once, with the id n and the slot
      that this id stands for from then on. */
  lemma {:induction false} SpawnsNumbered(s: Server, es: seq<Event>, t: Server)
    requires InitServer(s) && ServerRuns(s, es, t)
    ensures t.counter == |Spawners(es)| && (Spawners(es) != [] ==> t.counter < |t.ids|)
    ensures SpawnAnswers(s, es) == Named(t.ids, Spawners(es), 0)
  {
    InitServerOk(s);
    assert s.counter == 0;
    hide InitServer, ServerRuns, Inv;
    RunSpawns(s, map[], es, t);
  }

  // ----- the table of ids -----

  ghost predicate PowerOfTwo(n: nat) {
    n == 1 || (n > 1 && n % 2 == 0 && PowerOfTwo(n / 2))
  }

  /** The least power of two above the last id; nothing before the first. */
  ghost predicate TableFits(s: Server) {
    if s.counter == 0 then s.ids == [] else s.counter < |s.ids| <= 2 * s.counter && PowerOfTwo(|s.ids|)
  }

  lemma {:induction false} EventTable(s: Server, at: map<Core, Place>, e: Event)
    requires Inv(s, at) && Allowed(s, e) && (e.Message? ==> Accepted(s, e.r)) && TableFits(s)
    ensures TableFits(NextServer(s, e))
  {
    hide Inv, Allowed, Accepted, NextServer, EventReplies;
    EventSpawns(s, at, e);
    var n := |NextServer(s, e).ids|;
    assert n != |s.ids| && s.counter > 0 ==> n == 2 * |s.ids|;
  }

  lemma {:induction false} RunTable(s: Server, at: map<Core, Place>, es: seq<Event>, t: Server)
    requires Inv(s, at) && ServerRuns(s, es, t) && TableFits(s)
    ensures TableFits(t)
    decreases |es|
  {
    hide Inv, Allowed, Accepted, NextServer, TableFits;
    if es != [] {
      EventTable(s, at, es[0]);
      var at' := ServerStepOk(s, at, es[0]);
      RunTable(NextServer(s, es[0]), at', es[1..], t);
    }
  }

  /** In every run the ids that a join does not refuse outright are those below the least power of two
      above the number of spawns. */
  lemma {:induction false} TableSize(s: Server, es: seq<Event>, t: Server)
    requires InitServer(s) && ServerRuns(s, es, t)
    ensures t.counter == |Spawners(es)| && TableFits(t)
  {
    InitServerOk(s);
    assert TableFits(s);
    hide InitServer, ServerRuns, Inv, TableFits;
    RunTable(s, map[], es, t);
    SpawnsNumbered(s, es, t);
  }
}
