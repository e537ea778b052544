/** The master control program: what each message it handles does to the synchronization
    objects, the futexes and the threads, and which replies it sends.  It handles one message at
    a time (common/system/mcp.cc), so each handler is one step. */
module MasterControl {
  import opened Options
  import opened FutexWords
  import opened SyncObjects
  import opened Threads

  datatype Thread = Thread(tile: nat, idx: nat)

  /** The state of the master.  `starting` are the threads told to start that have not reported
      yet; `joiners` maps a thread to the one that joins it; `exited` records the ids of the
      threads that have left; `aborted` is set where the source stops with an error. */
  datatype Server = Server(
    tiles: seq<Tile>, starting: set<Thread>,
    ids: seq<Thread>, counter: nat, joiners: map<Thread, Thread>, exited: set<int>,
    mutexes: seq<Mutex>, conds: seq<seq<CondWaiter>>, barriers: seq<Barrier>,
    futexes: Futexes, memory: map<int, Int32>, aborted: bool)

  const MUTEX_LOCK_RESPONSE := 0xDEADBEEF
  const MUTEX_UNLOCK_RESPONSE := 0xBABECAFE
  const COND_WAIT_RESPONSE := MUTEX_LOCK_RESPONSE
  const COND_SIGNAL_RESPONSE := 0xBEEFCAFE
  const COND_BROADCAST_RESPONSE := 0xDEADCAFE
  const BARRIER_WAIT_RESPONSE := 0xCACACAFE
  const EWOULDBLOCK := 11

  datatype Body =
    | Index(value: nat)             // the new object of an init request
    | Code(code: int, time: nat)    // a response of the sync server
    | Result(result: int)           // a futex call's result
    | Spawned(thread: Thread, id: int)
    | Joined(at: nat)
    | Left(next: int)               // the next thread of the core, or -1

  datatype Reply = Reply(core: Core, body: Body)

  datatype Request =
    | MutexInit(c: Core)
    | MutexLock(c: Core, m: nat, time: nat)
    | MutexUnlock(c: Core, m: nat, time: nat)
    | CondInit(c: Core)
    | CondWait(c: Core, v: nat, m: nat, time: nat)
    | CondSignal(c: Core, v: nat, time: nat)
    | CondBroadcast(c: Core, v: nat, time: nat)
    | BarrierInit(c: Core, count: nat)
    | BarrierWait(c: Core, b: nat, time: nat)
    | FutexWait(c: Core, addr: int, val: Int32)
    | FutexWake(c: Core, addr: int, n: int)
    | FutexWakeOp(c: Core, addr: int, n: int, n2: int, addr2: int, op: Int32)
    | FutexCmpRequeue(c: Core, addr: int, n: int, n2: int, addr2: int, val: Int32)
    | Spawn(c: Core, idx: nat, dest: Option<nat>)
    | Start(c: Core, idx: nat)
    | Exit(c: Core, idx: nat, time: nat)
    | Join(c: Core, idx: nat, id: nat)

  // ----- stalling and resuming -----

  function Abort(s: Server): Server { s.(aborted := true) }

  function StallSlot(s: Server, c: Core, j: int): Server {
    if c < |s.tiles| && 0 <= j < |s.tiles[c].slots|
    then s.(tiles := s.tiles[c := SetStalled(s.tiles[c], j)]) else Abort(s)
  }

  function ResumeSlot(s: Server, c: Core, j: int): Server {
    if c < |s.tiles| && 0 <= j < |s.tiles[c].slots|
    then s.(tiles := s.tiles[c := SetRunning(s.tiles[c], j)]) else Abort(s)
  }

  /** Stalls the running thread of a core. */
  function StallThread(s: Server, c: Core): Server {
    if c < |s.tiles| then StallSlot(s, c, FirstWith(s.tiles[c].slots, Running, 0)) else Abort(s)
  }

  /** Resumes the thread of a core that was stalled last. */
  function ResumeThread(s: Server, c: Core): Server {
    if c < |s.tiles| then ResumeSlot(s, c, s.tiles[c].last) else Abort(s)
  }

  // ----- mutexes and condition variables -----

  function SetMutex(s: Server, m: nat, x: Mutex): Server
    requires m < |s.mutexes|
  {
    s.(mutexes := s.mutexes[m := x])
  }

  function SetCond(s: Server, v: nat, ws: seq<CondWaiter>): Server
    requires v < |s.conds|
  {
    s.(conds := s.conds[v := ws])
  }

  /** Locks for a core, or stalls it in the queue; and whether it owns the mutex now. */
  function LockMutex(s: Server, m: nat, c: Core): (Server, bool) {
    if m >= |s.mutexes| then (Abort(s), false)
    else if s.mutexes[m].owner.None? then (SetMutex(s, m, Lock(s.mutexes[m], c)), true)
    else (SetMutex(StallThread(s, c), m, Lock(s.mutexes[m], c)), false)
  }

  /** Passes the mutex on to the first in the queue, which is resumed. */
  function UnlockMutex(s: Server, m: nat, c: Core): (Server, Option<Core>) {
    if m >= |s.mutexes| || s.mutexes[m].owner != Some(c) then (Abort(s), None)
    else
      var x := Unlock(s.mutexes[m]);
      (SetMutex(if x.owner.Some? then ResumeThread(s, x.owner.value) else s, m, x), x.owner)
  }

  function Granted(c: Core, time: nat): Reply { Reply(c, Code(MUTEX_LOCK_RESPONSE, time)) }

  function GrantedIf(c: Option<Core>, time: nat): seq<Reply> {
    if c.Some? then [Granted(c.value, time)] else []
  }

  function DoLock(s: Server, c: Core, m: nat, time: nat): (Server, seq<Reply>) {
    var (t, owns) := LockMutex(s, m, c);
    (t, if owns then [Granted(c, time)] else [])
  }

  function DoUnlock(s: Server, c: Core, m: nat, time: nat): (Server, seq<Reply>) {
    var (t, next) := UnlockMutex(s, m, c);
    (t, GrantedIf(next, time) + [Reply(c, Code(MUTEX_UNLOCK_RESPONSE, 0))])
  }

  function DoCondWait(s: Server, c: Core, v: nat, m: nat, time: nat): (Server, seq<Reply>) {
    if v >= |s.conds| || m >= |s.mutexes| then (Abort(s), [])
    else
      var t := SetCond(StallThread(s, c), v, s.conds[v] + [CondWaiter(c, m, time)]);
      var (u, next) := UnlockMutex(t, m, c);
      (u, GrantedIf(next, time))
  }

  function DoSignal(s: Server, c: Core, v: nat, time: nat): (Server, seq<Reply>) {
    if v >= |s.conds| then (Abort(s), [])
    else
      var ack := [Reply(c, Code(COND_SIGNAL_RESPONSE, 0))];
      if s.conds[v] == [] then (s, ack)
      else
        var w := s.conds[v][0];
        var (t, owns) := LockMutex(ResumeThread(SetCond(s, v, Erased(s.conds[v])), w.core), w.mutex, w.core);
        (t, (if owns then [Granted(w.core, time)] else []) + ack)
  }

  /** Resumes the waiters one by one; each locks its mutex or goes into its queue. */
  function Awaken(s: Server, ws: seq<CondWaiter>): (Server, seq<Core>)
    decreases |ws|
  {
    if ws == [] then (s, [])
    else
      var (t, owns) := LockMutex(ResumeThread(s, ws[0].core), ws[0].mutex, ws[0].core);
      var (u, woken) := Awaken(t, ws[1..]);
      (u, (if owns then [ws[0].core] else []) + woken)
  }

  function GrantedAll(cs: seq<Core>, time: nat): (r: seq<Reply>) {
    seq(|cs|, i requires 0 <= i < |cs| => Granted(cs[i], time))
  }

  function DoBroadcast(s: Server, c: Core, v: nat, time: nat): (Server, seq<Reply>) {
    if v >= |s.conds| then (Abort(s), [])
    else
      var (t, woken) := Awaken(SetCond(s, v, []), s.conds[v]);
      (t, GrantedAll(woken, time) + [Reply(c, Code(COND_BROADCAST_RESPONSE, 0))])
  }

  // ----- barriers -----

  function ResumeAll(s: Server, cs: seq<Core>): Server
    decreases |cs|
  {
    if cs == [] then s else ResumeAll(ResumeThread(s, cs[0]), cs[1..])
  }

  function DoBarrierWait(s: Server, c: Core, b: nat, time: nat): (Server, seq<Reply>) {
    if b >= |s.barriers| || |s.barriers[b].waiting| + 1 > s.barriers[b].count then (Abort(s), [])
    else
      var (x, woken) := Arrive(s.barriers[b], c, time);
      var t := StallThread(s, c).(barriers := s.barriers[b := x]);
      (ResumeAll(t, woken),
       seq(|woken|, i requires 0 <= i < |woken| => Reply(woken[i], Code(BARRIER_WAIT_RESPONSE, x.maxTime))))
  }

  // ----- futexes -----

  function Word(s: Server, addr: int): Int32 {
    if addr in s.memory then s.memory[addr] else 0
  }

  /** The futex at an address comes into being when it is first named. */
  function Touch(s: Server, addr: int): Server {
    s.(futexes := s.futexes[addr := QueueOf(s.futexes, addr)])
  }

  function Enqueue(s: Server, addr: int, c: Core): Server {
    StallThread(s, c).(futexes := s.futexes[addr := QueueOf(s.futexes, addr) + [c]])
  }

  function Dequeue(s: Server, addr: int): Server
    requires QueueOf(s.futexes, addr) != []
  {
    var q := QueueOf(s.futexes, addr);
    ResumeThread(s.(futexes := s.futexes[addr := q[1..]]), q[0])
  }

  function WakeUp(s: Server, addr: int, n: int): (Server, seq<Core>)
    decreases if n > 0 then n else 0
  {
    var q := QueueOf(s.futexes, addr);
    if n <= 0 || q == [] then (s, [])
    else
      var (t, woken) := WakeUp(Dequeue(s, addr), addr, n - 1);
      (t, [q[0]] + woken)
  }

  function WokenReplies(cs: seq<Core>): seq<Reply> {
    seq(|cs|, i requires 0 <= i < |cs| => Reply(cs[i], Result(0)))
  }

  function DoFutexWait(s: Server, c: Core, addr: int, val: Int32): (Server, seq<Reply>) {
    if val != Word(s, addr) then (Touch(s, addr), [Reply(c, Result(-EWOULDBLOCK))])
    else (Enqueue(Touch(s, addr), addr, c), [])
  }

  function DoFutexWake(s: Server, c: Core, addr: int, n: int): (Server, seq<Reply>) {
    var (t, woken) := WakeUp(Touch(s, addr), addr, n);
    (t, WokenReplies(woken) + [Reply(c, Result(|woken|))])
  }

  function WakeIf(s: Server, holds: bool, addr: int, n: int): (Server, seq<Core>) {
    if holds then WakeUp(Touch(s, addr), addr, n) else (s, [])
  }

  function DoWakeOp(s: Server, c: Core, addr: int, n: int, n2: int, addr2: int, op: Int32): (Server, seq<Reply>) {
    var value, holds := NewValue(op, Word(s, addr2)), Compared(op, Word(s, addr2));
    if value.None? || holds.None? then (Abort(s), [])
    else
      var (t, woken) := WakeUp(Touch(s.(memory := s.memory[addr2 := value.value]), addr), addr, n);
      var (u, woken2) := WakeIf(t, holds.value, addr2, n2);
      (u, WokenReplies(woken) + WokenReplies(woken2) + [Reply(c, Result(|woken| + |woken2|))])
  }

  /** Waiters leave one queue and enter another one by one, resumed and stalled again. */
  function MoveWaiters(s: Server, addr: int, addr2: int, n: int): (Server, nat)
    decreases if n > 0 then n else 0
  {
    var q := QueueOf(s.futexes, addr);
    if n <= 0 || q == [] then (s, 0)
    else
      var (t, moved) := MoveWaiters(Enqueue(Dequeue(s, addr), addr2, q[0]), addr, addr2, n - 1);
      (t, moved + 1)
  }

  function DoCmpRequeue(s: Server, c: Core, addr: int, n: int, n2: int, addr2: int, val: Int32): (Server, seq<Reply>) {
    if val != Word(s, addr) then (s, [Reply(c, Result(-EWOULDBLOCK))])
    else
      var (t, woken) := WakeUp(Touch(s, addr), addr, n);
      var (u, moved) := MoveWaiters(Touch(t, addr2), addr, addr2, n2);
      (u, WokenReplies(woken) + [Reply(c, Result(|woken| + moved))])
  }

  // ----- threads -----

  /** The first tile after `c` in turn, other than 0, whose slot `j` is idle. */
  function IdleAfter(tiles: seq<Tile>, c: nat, j: nat, i: nat): Option<nat>
    requires tiles != []
    decreases |tiles| + 1 - i
  {
    if i > |tiles| then None
    else
      var t := (c + i) % |tiles|;
      if t != 0 && j < |tiles[t].slots| && tiles[t].slots[j].status == Idle then Some(t)
      else IdleAfter(tiles, c, j, i + 1)
  }

  /** Among the first `k` slot indices the last one that some tile has idle wins. */
  function PickIdle(tiles: seq<Tile>, c: nat, k: nat): Option<Thread>
    requires tiles != []
  {
    if k == 0 then None
    else
      var t := IdleAfter(tiles, c, k - 1, 1);
      if t.Some? then Some(Thread(t.value, k - 1)) else PickIdle(tiles, c, k - 1)
  }

  function PickSlot(s: Server, c: Core, dest: Option<nat>): Option<Thread>
    requires c < |s.tiles|
  {
    if dest.None? then PickIdle(s.tiles, c, |s.tiles[0].slots|)
    else if dest.value >= |s.tiles| then None
    else
      var j := FirstWith(s.tiles[dest.value].slots, Idle, 0);
      if j < 0 then None else Some(Thread(dest.value, j))
  }

  /** Records the new thread under the next id; the table of ids grows by doubling. */
  function NewThreadId(s: Server, th: Thread): Server {
    var id := s.counter + 1;
    var ids := if |s.ids| <= id then s.ids + seq(2 * id - |s.ids|, _ => Thread(0, 0)) else s.ids;
    s.(counter := id, ids := ids[id := th])
  }

  function DoSpawn(s: Server, c: Core, j: nat, dest: Option<nat>): (Server, seq<Reply>) {
    if c >= |s.tiles| then (Abort(s), [])
    else
      var s1 := StallSlot(s, c, j);
      var th := PickSlot(s1, c, dest);
      if th.None? then (Abort(s1), [])
      else
        var s2 := ScheduleThread(NewThreadId(s1, th.value), c, th.value);
        (ResumeThread(s2, c), [Reply(c, Spawned(th.value, s2.counter))])
  }

  /** Puts the thread in its tile's queue, and starts it if the core is free. */
  function ScheduleThread(s: Server, c: Core, d: Thread): Server {
    if d.tile >= |s.tiles| || d.idx >= |s.tiles[d.tile].slots| || s.tiles[d.tile].slots[d.idx].status != Idle
    then Abort(s)
    else
      var startable := c != d.tile && Startable(s.tiles[d.tile].slots);
      var t := s.(tiles := s.tiles[d.tile := Schedule(s.tiles[d.tile], d.idx, s.counter)]);
      if startable then StartNext(t, d.tile) else t
  }

  /** Tells the first thread in a tile's queue to start. */
  function StartNext(s: Server, c: Core): Server
    requires c < |s.tiles|
  {
    var t := s.tiles[c];
    if t.run == [] || t.run[0] >= |t.slots| ||
        !(t.slots[t.run[0]].status.Initializing? || t.slots[t.run[0]].status.Stalled?)
    then Abort(s) else s.(starting := s.starting + {Thread(c, t.run[0])})
  }

  function DoStart(s: Server, c: Core, j: nat): (Server, seq<Reply>) {
    if c >= |s.tiles| || j >= |s.tiles[c].slots| || s.tiles[c].slots[j].status != Initializing then (Abort(s), [])
    else (ResumeSlot(s, c, j).(starting := s.starting - {Thread(c, j)}), [])
  }

  /** Resumes the thread that joins `th`, if there is one. */
  function WakeUpWaiter(s: Server, th: Thread, time: nat): (Server, seq<Reply>) {
    if th !in s.joiners then (s, [])
    else
      var w := s.joiners[th];
      (ResumeSlot(s, w.tile, w.idx).(joiners := s.joiners - {th}), [Reply(w.tile, Joined(time))])
  }

  /** After a thread has left its core: the next in the queue goes on. */
  function NextInLine(s: Server, c: Core): (Server, seq<Reply>)
    requires c < |s.tiles|
  {
    var t := s.tiles[c];
    if FirstWith(t.slots, Running, 0) >= 0 then (Abort(s), [])
    else if t.run == [] then (s, [Reply(c, Left(-1))])
    else if t.run[0] >= |t.slots| then (Abort(s), [])
    else
      (if t.slots[t.run[0]].status == Initializing then StartNext(s, c) else ResumeSlot(s, c, t.run[0]),
       [Reply(c, Left(t.run[0]))])
  }

  function DoExit(s: Server, c: Core, j: nat, time: nat): (Server, seq<Reply>) {
    if c >= |s.tiles| || j >= |s.tiles[c].slots| || s.tiles[c].slots[j].status != Running then (Abort(s), [])
    else
      var t := s.tiles[c];
      var s1 := s.(tiles := s.tiles[c := Finish(t, j, time)], exited := s.exited + {t.slots[j].id});
      var (s2, woken) := WakeUpWaiter(s1, Thread(c, j), time);
      var (s3, next) := NextInLine(s2, c);
      (s3, woken + next)
  }

  function DoJoin(s: Server, c: Core, j: nat, id: nat): (Server, seq<Reply>) {
    if id >= |s.ids| then (Abort(s), [])
    else
      var th := s.ids[id];
      if th in s.joiners || th.tile >= |s.tiles| || th.idx >= |s.tiles[th.tile].slots| then (Abort(s), [])
      else
        var s1 := StallThread(s, c).(joiners := s.joiners[th := Thread(c, j)]);
        if s.tiles[th.tile].slots[th.idx].status == Idle
        then WakeUpWaiter(s1, th, s.tiles[th.tile].slots[th.idx].completed) else (s1, [])
  }

  /** One message. */
  function Handle(s: Server, r: Request): (Server, seq<Reply>) {
    match r
    case MutexInit(c) => (s.(mutexes := s.mutexes + [Mutex(None, [])]), [Reply(c, Index(|s.mutexes|))])
    case MutexLock(c, m, time) => DoLock(s, c, m, time)
    case MutexUnlock(c, m, time) => DoUnlock(s, c, m, time)
    case CondInit(c) => (s.(conds := s.conds + [[]]), [Reply(c, Index(|s.conds|))])
    case CondWait(c, v, m, time) => DoCondWait(s, c, v, m, time)
    case CondSignal(c, v, time) => DoSignal(s, c, v, time)
    case CondBroadcast(c, v, time) => DoBroadcast(s, c, v, time)
    case BarrierInit(c, n) => (s.(barriers := s.barriers + [Barrier(n, [], 0)]), [Reply(c, Index(|s.barriers|))])
    case BarrierWait(c, b, time) => DoBarrierWait(s, c, b, time)
    case FutexWait(c, addr, val) => DoFutexWait(s, c, addr, val)
    case FutexWake(c, addr, n) => DoFutexWake(s, c, addr, n)
    case FutexWakeOp(c, addr, n, n2, addr2, op) => DoWakeOp(s, c, addr, n, n2, addr2, op)
    case FutexCmpRequeue(c, addr, n, n2, addr2, val) => DoCmpRequeue(s, c, addr, n, n2, addr2, val)
    case Spawn(c, j, dest) => DoSpawn(s, c, j, dest)
    case Start(c, j) => DoStart(s, c, j)
    case Exit(c, j, time) => DoExit(s, c, j, time)
    case Join(c, j, id) => DoJoin(s, c, j, id)
  }
}
