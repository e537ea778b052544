/** The master control program as it works: an object whose handlers change its tables in place
    and send replies (common/system/mcp.cc, sync_server.cc, syscall_server.cc, thread_manager.cc,
    thread_scheduler.cc).  Every handler does what `MasterControl.Handle` says. */
module McpProgram {
  import opened Options
  import opened FutexWords
  import opened SyncObjects
  import opened Threads
  import opened MasterControl
  import opened McpInvariant
  import opened McpRuns
  import opened McpOrder
  import opened McpObjects
  import opened McpHistory

  /** The state at the start: the main thread runs on tile 0, the other slots are idle. */
  function Fresh(tileCount: nat, threadsPerCore: nat): Server
    requires tileCount > 0 && threadsPerCore > 0
  {
    var idle := Tile(seq(threadsPerCore, _ => Slot(Idle, -1, 0)), [], -1);
    Server(seq(tileCount, _ => idle)[0 := idle.(slots := idle.slots[0 := Slot(Running, -1, 0)])],
           {}, [], 0, map[], {}, [], [], [], map[], map[], false)
  }

  lemma {:induction false} FreshIsInit(tileCount: nat, threadsPerCore: nat)
    requires tileCount > 0 && threadsPerCore > 0
    ensures InitServer(Fresh(tileCount, threadsPerCore))
  {
  }

  /** The events are allowed and accepted one after another. */
  ghost predicate Servable(s: Server, es: seq<Event>)
    decreases |es|
  {
    es == []
    || (Allowed(s, es[0]) && (es[0].Message? ==> Accepted(s, es[0].r)) && Servable(NextServer(s, es[0]), es[1..]))
  }

  class Mcp {
    var tiles: seq<Tile>
    var starting: set<Thread>
    var ids: seq<Thread>
    var counter: nat
    var joiners: map<Thread, Thread>
    var exited: set<int>
    var mutexes: seq<Mutex>
    var conds: seq<seq<CondWaiter>>
    var barriers: seq<Barrier>
    var futexes: Futexes
    var memory: map<int, Int32>
    var aborted: bool
    /** The replies in the order in which they were sent. */
    var sent: seq<Reply>

    function State(): Server
      reads this
    {
      Server(tiles, starting, ids, counter, joiners, exited, mutexes, conds, barriers, futexes, memory, aborted)
    }

    /** The invariant of the master holds. */
    ghost predicate Orderly()
      reads this
    {
      exists at :: Inv(State(), at)
    }

    constructor (tileCount: nat, threadsPerCore: nat)
      requires tileCount > 0 && threadsPerCore > 0
      ensures State() == Fresh(tileCount, threadsPerCore) && sent == []
      ensures InitServer(State()) && Orderly()
    {
      var idle := Tile(seq(threadsPerCore, _ => Slot(Idle, -1, 0)), [], -1);
      tiles := seq(tileCount, _ => idle)[0 := idle.(slots := idle.slots[0 := Slot(Running, -1, 0)])];
      starting, exited := {}, {};
      ids, counter, joiners := [], 0, map[];
      mutexes, conds, barriers, futexes, memory := [], [], [], map[], map[];
      aborted, sent := false, [];
      new;
      FreshIsInit(tileCount, threadsPerCore);
      hide InitServer, Inv;
      InitServerOk(State());
    }

    method Send(r: Reply)
      modifies this`sent
      ensures sent == old(sent) + [r]
    {
      sent := sent + [r];
    }

    // ----- stalling and resuming -----

    method Stall(c: Core)
      modifies this`tiles, this`aborted
      ensures State() == StallThread(old(State()), c)
    {
      if c >= |tiles| {
        aborted := true;
        return;
      }
      var j, _ := IsCoreRunning(tiles[c].slots);
      if j < 0 {
        aborted := true;
      } else {
        tiles := tiles[c := SetStalled(tiles[c], j)];
      }
    }

    method Resume(c: Core)
      modifies this`tiles, this`aborted
      ensures State() == ResumeThread(old(State()), c)
    {
      if c < |tiles| && 0 <= tiles[c].last < |tiles[c].slots| {
        tiles := tiles[c := SetRunning(tiles[c], tiles[c].last)];
      } else {
        aborted := true;
      }
    }

    // ----- mutexes -----

    method LockFor(m: nat, c: Core) returns (owns: bool)
      modifies this`tiles, this`aborted, this`mutexes
      ensures (State(), owns) == LockMutex(old(State()), m, c)
    {
      if m >= |mutexes| {
        aborted := true;
        return false;
      }
      var x := mutexes[m];
      if x.owner.None? {
        mutexes := mutexes[m := x.(owner := Some(c))];
        return true;
      }
      Stall(c);
      mutexes := mutexes[m := x.(waiting := x.waiting + [c])];
      return false;
    }

    method UnlockFor(m: nat, c: Core) returns (next: Option<Core>)
      modifies this`tiles, this`aborted, this`mutexes
      ensures (State(), next) == UnlockMutex(old(State()), m, c)
    {
      if m >= |mutexes| || mutexes[m].owner != Some(c) {
        aborted := true;
        return None;
      }
      var x := mutexes[m];
      if x.waiting == [] {
        mutexes := mutexes[m := x.(owner := None)];
        return None;
      }
      next := Some(x.waiting[0]);
      Resume(x.waiting[0]);
      mutexes := mutexes[m := Mutex(next, x.waiting[1..])];
    }

    method HandleMutexLock(c: Core, m: nat, time: nat)
      modifies this
      ensures State() == DoLock(old(State()), c, m, time).0 && sent == old(sent) + DoLock(old(State()), c, m, time).1
    {
      var owns := LockFor(m, c);
      if owns {
        Send(Granted(c, time));
      }
    }

    method HandleMutexUnlock(c: Core, m: nat, time: nat)
      modifies this
      ensures State() == DoUnlock(old(State()), c, m, time).0
      ensures sent == old(sent) + DoUnlock(old(State()), c, m, time).1
    {
      hide LockMutex, UnlockMutex;
      var next := UnlockFor(m, c);
      if next.Some? {
        Send(Granted(next.value, time));
      }
      Send(Reply(c, Code(MUTEX_UNLOCK_RESPONSE, 0)));
    }

    // ----- condition variables -----

    method HandleCondWait(c: Core, v: nat, m: nat, time: nat)
      modifies this
      ensures State() == DoCondWait(old(State()), c, v, m, time).0
      ensures sent == old(sent) + DoCondWait(old(State()), c, v, m, time).1
    {
      hide StallThread, UnlockMutex;
      if v >= |conds| || m >= |mutexes| {
        aborted := true;
        return;
      }
      StallFrame(State(), c);
      Stall(c);
      conds := conds[v := conds[v] + [CondWaiter(c, m, time)]];
      var next := UnlockFor(m, c);
      if next.Some? {
        Send(Granted(next.value, time));
      }
    }

    /** Erasing the first element of a vector assigns each element from its successor; assigning
        to a reference to a mutex changes nothing. */
    method EraseFirst(ws: seq<CondWaiter>) returns (r: seq<CondWaiter>)
      requires ws != []
      ensures r == Erased(ws)
    {
      r := ws;
      for i := 0 to |ws| - 1
        invariant |r| == |ws|
        invariant forall k :: 0 <= k < i ==> r[k] == CondWaiter(ws[k + 1].core, ws[k].mutex, ws[k + 1].time)
        invariant forall k :: i <= k < |ws| ==> r[k] == ws[k]
      {
        r := r[i := CondWaiter(r[i + 1].core, r[i].mutex, r[i + 1].time)];
      }
      r := r[..|ws| - 1];
    }

    method HandleCondSignal(c: Core, v: nat, time: nat)
      modifies this
      ensures State() == DoSignal(old(State()), c, v, time).0
      ensures sent == old(sent) + DoSignal(old(State()), c, v, time).1
    {
      hide ResumeThread, LockMutex, Erased;
      if v >= |conds| {
        aborted := true;
        return;
      }
      if conds[v] != [] {
        var w := conds[v][0];
        var rest := EraseFirst(conds[v]);
        conds := conds[v := rest];
        Resume(w.core);
        var owns := LockFor(w.mutex, w.core);
        if owns {
          Send(Granted(w.core, time));
        }
      }
      Send(Reply(c, Code(COND_SIGNAL_RESPONSE, 0)));
    }

    /** Resumes all waiters of a condition; returns those that own their mutex now. */
    method Broadcast(v: nat) returns (woken: seq<Core>)
      requires v < |conds|
      modifies this`tiles, this`aborted, this`mutexes, this`conds
      ensures (State(), woken) == Awaken(SetCond(old(State()), v, []), old(conds[v]))
    {
      hide ResumeThread, LockMutex;
      ghost var goal := Awaken(SetCond(State(), v, []), conds[v]);
      woken := [];
      var ws := conds[v];
      assert ws[0..] == ws;
      Prepend([], Awaken(SetCond(State(), v, []), ws).1, []);
      for i := 0 to |ws|
        modifies this`tiles, this`aborted, this`mutexes
        invariant var (t, more) := Awaken(SetCond(State(), v, []), ws[i..]); goal == (t, woken + more)
      {
        ghost var before := State();
        assert ws[i..][0] == ws[i] && ws[i..][1..] == ws[i + 1..];
        Resume(ws[i].core);
        ResumeKeepsConds(before, v, ws[i].core);
        ghost var between := State();
        var owns := LockFor(ws[i].mutex, ws[i].core);
        LockKeepsAllConds(between, v, ws[i].mutex, ws[i].core);
        Prepend(woken, if owns then [ws[i].core] else [], Awaken(SetCond(State(), v, []), ws[i + 1..]).1);
        if owns {
          woken := woken + [ws[i].core];
        }
      }
      assert ws[|ws|..] == [];
      Prepend(woken, [], []);
      conds := conds[v := []];
    }

    method HandleCondBroadcast(c: Core, v: nat, time: nat)
      modifies this
      ensures State() == DoBroadcast(old(State()), c, v, time).0
      ensures sent == old(sent) + DoBroadcast(old(State()), c, v, time).1
    {
      hide Awaken;
      if v >= |conds| {
        aborted := true;
        return;
      }
      var woken := Broadcast(v);
      for i := 0 to |woken|
        modifies this`sent
        invariant sent == old(sent) + GrantedAll(woken[..i], time)
      {
        Send(Granted(woken[i], time));
        assert GrantedAll(woken[..i + 1], time) == GrantedAll(woken[..i], time) + [Granted(woken[i], time)];
      }
      assert woken[..|woken|] == woken;
      Send(Reply(c, Code(COND_BROADCAST_RESPONSE, 0)));
    }

    // ----- barriers -----

    /** Resumes the cores of a full barrier, each tile once. */
    method ResumeOnce(cs: seq<Core>)
      modifies this`tiles, this`aborted
      ensures State() == ResumeAll(old(State()), cs)
    {
      hide ResumeThread;
      var resumed: set<nat> := {};
      for i := 0 to |cs|
        invariant ResumeAll(State(), cs[i..]) == ResumeAll(old(State()), cs)
        invariant forall d :: d in resumed ==> ResumeThread(State(), d) == State()
      {
        assert cs[i..][1..] == cs[i + 1..];
        if cs[i] !in resumed {
          ghost var before := State();
          resumed := resumed + {cs[i]};
          Resume(cs[i]);
          forall d | d in resumed
            ensures ResumeThread(State(), d) == State()
          {
            ResumeAgain(before, cs[i], d);
          }
        }
      }
    }

    method HandleBarrierWait(c: Core, b: nat, time: nat)
      modifies this
      ensures State() == DoBarrierWait(old(State()), c, b, time).0
      ensures sent == old(sent) + DoBarrierWait(old(State()), c, b, time).1
    {
      hide StallThread, ResumeAll;
      if b >= |barriers| || |barriers[b].waiting| + 1 > barriers[b].count {
        aborted := true;
        return;
      }
      var x := barriers[b];
      var waiting := x.waiting + [c];
      StallFrame(State(), c);
      Stall(c);
      var maxTime := if |waiting| == 1 || time > x.maxTime then time else x.maxTime;
      if |waiting| == x.count {
        barriers := barriers[b := Barrier(x.count, [], maxTime)];
        ResumeOnce(waiting);
        for i := 0 to |waiting|
          modifies this`sent
          invariant sent == old(sent) +
            seq(i, k requires 0 <= k < i => Reply(waiting[k], Code(BARRIER_WAIT_RESPONSE, maxTime)))
        {
          Send(Reply(waiting[i], Code(BARRIER_WAIT_RESPONSE, maxTime)));
        }
      } else {
        barriers := barriers[b := Barrier(x.count, waiting, maxTime)];
        ResumeNone(State());
      }
    }

    // ----- futexes -----

    method EnqueueWaiter(addr: int, c: Core)
      modifies this`tiles, this`aborted, this`futexes
      ensures State() == Enqueue(old(State()), addr, c)
    {
      hide StallThread;
      StallFrame(State(), c);
      Stall(c);
      futexes := futexes[addr := QueueOf(futexes, addr) + [c]];
    }

    method DequeueWaiter(addr: int) returns (c: Option<Core>)
      modifies this`tiles, this`aborted, this`futexes
      ensures var q := old(QueueOf(futexes, addr));
        if q == [] then c == None && State() == old(State())
        else c == Some(q[0]) && State() == Dequeue(old(State()), addr)
    {
      hide ResumeThread;
      var q := QueueOf(futexes, addr);
      if q == [] {
        return None;
      }
      futexes := futexes[addr := q[1..]];
      Resume(q[0]);
      return Some(q[0]);
    }

    /** Wakes up to `n` waiters and tells each. */
    method FutexWakeLoop(addr: int, n: int) returns (count: nat)
      modifies this`tiles, this`aborted, this`futexes, this`sent
      ensures var (t, woken) := WakeUp(Touch(old(State()), addr), addr, n);
        State() == t && count == |woken| && sent == old(sent) + WokenReplies(woken)
    {
      hide Dequeue, WakeUp, WokenReplies;
      NoWoken();
      futexes := futexes[addr := QueueOf(futexes, addr)];
      ghost var goal := WakeUp(State(), addr, n);
      ghost var woken: seq<Core> := [];
      count := 0;
      Prepend([], goal.1, []);
      var i := 0;
      while i < n
        invariant 0 <= i <= n || n < 0
        invariant n < 0 ==> i == 0
        invariant var (t, more) := WakeUp(State(), addr, n - i); goal == (t, woken + more)
        invariant count == |woken| && sent == old(sent) + WokenReplies(woken)
      {
        WakeUpUnfold(State(), addr, n - i);
        var c := DequeueWaiter(addr);
        if c.None? {
          break;
        }
        count := count + 1;
        Send(Reply(c.value, Result(0)));
        WokenMore(woken, c.value);
        Prepend(woken, [c.value], WakeUp(State(), addr, n - i - 1).1);
        woken := woken + [c.value];
        i := i + 1;
      }
      WakeUpUnfold(State(), addr, n - i);
      Prepend(woken, [], []);
    }

    method HandleFutexWait(c: Core, addr: int, val: Int32)
      modifies this
      ensures State() == DoFutexWait(old(State()), c, addr, val).0
      ensures sent == old(sent) + DoFutexWait(old(State()), c, addr, val).1
    {
      hide Enqueue;
      futexes := futexes[addr := QueueOf(futexes, addr)];
      if val != Word(State(), addr) {
        Send(Reply(c, Result(-EWOULDBLOCK)));
      } else {
        EnqueueWaiter(addr, c);
      }
    }

    method HandleFutexWake(c: Core, addr: int, n: int)
      modifies this
      ensures State() == DoFutexWake(old(State()), c, addr, n).0
      ensures sent == old(sent) + DoFutexWake(old(State()), c, addr, n).1
    {
      hide WakeUp, WokenReplies;
      var count := FutexWakeLoop(addr, n);
      Send(Reply(c, Result(count)));
    }

    method HandleFutexWakeOp(c: Core, addr: int, n: int, n2: int, addr2: int, op: Int32)
      modifies this
      ensures State() == DoWakeOp(old(State()), c, addr, n, n2, addr2, op).0
      ensures sent == old(sent) + DoWakeOp(old(State()), c, addr, n, n2, addr2, op).1
    {
      hide WakeIf, WakeUp, WokenReplies, NewValue, Compared, Touch, Word;
      var word := Word(State(), addr2);
      var value, holds := NewValue(op, word), Compared(op, word);
      if value.None? || holds.None? {
        aborted := true;
        return;
      }
      memory := memory[addr2 := value.value];
      var count := FutexWakeLoop(addr, n);
      var count2 := FutexWakeIf(holds.value, addr2, n2);
      Send(Reply(c, Result(count + count2)));
    }

    method FutexWakeIf(holds: bool, addr: int, n: int) returns (count: nat)
      modifies this`tiles, this`aborted, this`futexes, this`sent
      ensures var (t, woken) := WakeIf(old(State()), holds, addr, n);
        State() == t && count == |woken| && sent == old(sent) + WokenReplies(woken)
    {
      hide WakeUp, Touch;
      NoWoken();
      count := 0;
      if holds {
        count := FutexWakeLoop(addr, n);
      }
    }

    method HandleFutexCmpRequeue(c: Core, addr: int, n: int, n2: int, addr2: int, val: Int32)
      modifies this
      ensures State() == DoCmpRequeue(old(State()), c, addr, n, n2, addr2, val).0
      ensures sent == old(sent) + DoCmpRequeue(old(State()), c, addr, n, n2, addr2, val).1
    {
      hide WakeUp, MoveWaiters, WokenReplies;
      if val != Word(State(), addr) {
        Send(Reply(c, Result(-EWOULDBLOCK)));
        return;
      }
      var count := FutexWakeLoop(addr, n);
      var moved := RequeueLoop(addr, addr2, n2);
      Send(Reply(c, Result(count + moved)));
    }

    method RequeueLoop(addr: int, addr2: int, n: int) returns (moved: nat)
      modifies this`tiles, this`aborted, this`futexes
      ensures (State(), moved) == MoveWaiters(Touch(old(State()), addr2), addr, addr2, n)
    {
      hide Dequeue, Enqueue;
      futexes := futexes[addr2 := QueueOf(futexes, addr2)];
      ghost var goal := MoveWaiters(State(), addr, addr2, n);
      moved := 0;
      while moved < n
        invariant moved <= n || (n < 0 && moved == 0)
        invariant var (t, more) := MoveWaiters(State(), addr, addr2, n - moved); goal == (t, moved + more)
      {
        var c := DequeueWaiter(addr);
        if c.None? {
          break;
        }
        moved := moved + 1;
        EnqueueWaiter(addr2, c.value);
      }
    }

    // ----- threads -----

    /** The first tile in turn after `c`, other than 0, whose slot `j` is idle. */
    method FindTile(c: Core, j: nat) returns (t: Option<nat>)
      requires c < |tiles|
      ensures t == IdleAfter(tiles, c, j, 1)
    {
      var i := 1;
      while i <= |tiles|
        invariant 1 <= i <= |tiles| + 1
        invariant IdleAfter(tiles, c, j, 1) == IdleAfter(tiles, c, j, i)
      {
        var k := (c + i) % |tiles|;
        if k != 0 && j < |tiles[k].slots| && tiles[k].slots[j].status == Idle {
          return Some(k);
        }
        i := i + 1;
      }
      return None;
    }

    /** Slot index by slot index: the last one that some tile has idle wins. */
    method FindIdleSlot(c: Core) returns (th: Option<Thread>)
      requires c < |tiles|
      ensures th == PickIdle(tiles, c, |tiles[0].slots|)
    {
      hide IdleAfter;
      th := None;
      for j := 0 to |tiles[0].slots|
        invariant th == PickIdle(tiles, c, j)
      {
        var t := FindTile(c, j);
        if t.Some? {
          th := Some(Thread(t.value, j));
        }
      }
    }

    method GetNewThreadId(th: Thread)
      modifies this`ids, this`counter
      ensures State() == NewThreadId(old(State()), th)
    {
      counter := counter + 1;
      if |ids| <= counter {
        ids := ids + seq(2 * counter - |ids|, _ => Thread(0, 0));
      }
      ids := ids[counter := th];
    }

    method StartThread(c: Core)
      requires c < |tiles|
      modifies this`starting, this`aborted
      ensures State() == StartNext(old(State()), c)
    {
      var t := tiles[c];
      if t.run == [] || t.run[0] >= |t.slots| ||
          !(t.slots[t.run[0]].status.Initializing? || t.slots[t.run[0]].status.Stalled?) {
        aborted := true;
      } else {
        starting := starting + {Thread(c, t.run[0])};
      }
    }

    method ScheduleOn(c: Core, d: Thread)
      modifies this`tiles, this`starting, this`aborted
      ensures State() == ScheduleThread(old(State()), c, d)
    {
      hide StartNext, FirstWith;
      if d.tile >= |tiles| || d.idx >= |tiles[d.tile].slots| || tiles[d.tile].slots[d.idx].status != Idle {
        aborted := true;
        return;
      }
      var slots := tiles[d.tile].slots;
      var startable := c != d.tile && Startable(slots);
      tiles := tiles[d.tile := Schedule(tiles[d.tile], d.idx, counter)];
      if startable {
        StartThread(d.tile);
      }
    }

    method SpawnThread(c: Core, j: nat, dest: Option<nat>)
      modifies this
      ensures State() == DoSpawn(old(State()), c, j, dest).0 && sent == old(sent) + DoSpawn(old(State()), c, j, dest).1
    {
      hide NewThreadId, ScheduleThread, ResumeThread, PickSlot, StallSlot;
      if c >= |tiles| {
        aborted := true;
        return;
      }
      StallSlotSize(State(), c, j);
      StallAt(c, j);
      var th := Destination(c, dest);
      if th.None? {
        aborted := true;
        return;
      }
      GetNewThreadId(th.value);
      ScheduleOn(c, th.value);
      Resume(c);
      ScheduleKeepsCounter(NewThreadId(StallSlot(old(State()), c, j), th.value), c, th.value);
      Send(Reply(c, Spawned(th.value, counter)));
    }

    method StallAt(c: Core, j: nat)
      modifies this`tiles, this`aborted
      ensures State() == StallSlot(old(State()), c, j)
    {
      if c < |tiles| && j < |tiles[c].slots| {
        tiles := tiles[c := SetStalled(tiles[c], j)];
      } else {
        aborted := true;
      }
    }

    method Destination(c: Core, dest: Option<nat>) returns (th: Option<Thread>)
      requires c < |tiles|
      ensures th == PickSlot(State(), c, dest)
    {
      hide PickIdle;
      if dest.None? {
        th := FindIdleSlot(c);
      } else if dest.value >= |tiles| {
        th := None;
      } else {
        var j := GetIdleThread(tiles[dest.value].slots);
        th := if j < 0 then None else Some(Thread(dest.value, j));
      }
    }

    method OnThreadStart(c: Core, j: nat)
      modifies this
      ensures State() == DoStart(old(State()), c, j).0 && sent == old(sent) + DoStart(old(State()), c, j).1
    {
      if c >= |tiles| || j >= |tiles[c].slots| || tiles[c].slots[j].status != Initializing {
        aborted := true;
      } else {
        tiles := tiles[c := SetRunning(tiles[c], j)];
        starting := starting - {Thread(c, j)};
      }
    }

    method WakeUpJoiner(th: Thread, time: nat)
      modifies this`tiles, this`joiners, this`aborted, this`sent
      ensures State() == WakeUpWaiter(old(State()), th, time).0
      ensures sent == old(sent) + WakeUpWaiter(old(State()), th, time).1
    {
      if th in joiners {
        var w := joiners[th];
        if w.tile < |tiles| && w.idx < |tiles[w.tile].slots| {
          tiles := tiles[w.tile := SetRunning(tiles[w.tile], w.idx)];
        } else {
          aborted := true;
        }
        Send(Reply(w.tile, Joined(time)));
        joiners := joiners - {th};
      }
    }

    /** The scheduler's half of an exit. */
    method ScheduleNext(c: Core)
      requires c < |tiles|
      modifies this`tiles, this`starting, this`aborted, this`sent
      ensures State() == NextInLine(old(State()), c).0 && sent == old(sent) + NextInLine(old(State()), c).1
    {
      hide StartNext;
      var t := tiles[c];
      var running, _ := IsCoreRunning(t.slots);
      if running >= 0 {
        aborted := true;
      } else if t.run == [] {
        Send(Reply(c, Left(-1)));
      } else if t.run[0] >= |t.slots| {
        aborted := true;
      } else {
        if t.slots[t.run[0]].status == Initializing {
          StartThread(c);
        } else {
          tiles := tiles[c := SetRunning(t, t.run[0])];
        }
        Send(Reply(c, Left(t.run[0])));
      }
    }

    method OnThreadExit(c: Core, j: nat, time: nat)
      modifies this
      ensures State() == DoExit(old(State()), c, j, time).0 && sent == old(sent) + DoExit(old(State()), c, j, time).1
    {
      hide NextInLine, Finish;
      if c >= |tiles| || j >= |tiles[c].slots| || tiles[c].slots[j].status != Running {
        aborted := true;
        return;
      }
      exited := exited + {tiles[c].slots[j].id};
      tiles := tiles[c := Finish(tiles[c], j, time)];
      ghost var s1 := State();
      WakeUpJoiner(Thread(c, j), time);
      assert |tiles| == |s1.tiles|;
      hide WakeUpWaiter;
      ScheduleNext(c);
    }

    method JoinThread(c: Core, j: nat, id: nat)
      modifies this
      ensures State() == DoJoin(old(State()), c, j, id).0 && sent == old(sent) + DoJoin(old(State()), c, j, id).1
    {
      hide WakeUpWaiter, StallThread;
      if id >= |ids| {
        aborted := true;
        return;
      }
      var th := ids[id];
      if th in joiners || th.tile >= |tiles| || th.idx >= |tiles[th.tile].slots| {
        aborted := true;
        return;
      }
      var slot := tiles[th.tile].slots[th.idx];
      StallFrame(State(), c);
      joiners := joiners[th := Thread(c, j)];
      StallKeepsJoiners(old(State()), joiners, c);
      Stall(c);
      if slot.status == Idle {
        WakeUpJoiner(th, slot.completed);
      }
    }

    /** The futex calls. */
    method HandleSyscall(r: Request)
      requires r.FutexWait? || r.FutexWake? || r.FutexWakeOp? || r.FutexCmpRequeue?
      modifies this
      ensures State() == Handle(old(State()), r).0 && sent == old(sent) + Handle(old(State()), r).1
    {
      hide DoFutexWait, DoFutexWake, DoWakeOp, DoCmpRequeue;
      match r {
        case FutexWait(c, addr, val) => HandleFutexWait(c, addr, val);
        case FutexWake(c, addr, n) => HandleFutexWake(c, addr, n);
        case FutexWakeOp(c, addr, n, n2, addr2, op) => HandleFutexWakeOp(c, addr, n, n2, addr2, op);
        case FutexCmpRequeue(c, addr, n, n2, addr2, val) => HandleFutexCmpRequeue(c, addr, n, n2, addr2, val);
      }
    }

    method HandleThread(r: Request)
      requires r.Spawn? || r.Start? || r.Exit? || r.Join?
      modifies this
      ensures State() == Handle(old(State()), r).0 && sent == old(sent) + Handle(old(State()), r).1
    {
      hide DoSpawn, DoStart, DoExit, DoJoin;
      match r {
        case Spawn(c, j, dest) => SpawnThread(c, j, dest);
        case Start(c, j) => OnThreadStart(c, j);
        case Exit(c, j, time) => OnThreadExit(c, j, time);
        case Join(c, j, id) => JoinThread(c, j, id);
      }
    }

    method HandleInit(r: Request)
      requires r.MutexInit? || r.CondInit? || r.BarrierInit?
      modifies this
      ensures State() == Handle(old(State()), r).0 && sent == old(sent) + Handle(old(State()), r).1
    {
      match r {
        case MutexInit(c) =>
          mutexes := mutexes + [Mutex(None, [])];
          Send(Reply(c, Index(|mutexes| - 1)));
        case CondInit(c) =>
          conds := conds + [[]];
          Send(Reply(c, Index(|conds| - 1)));
        case BarrierInit(c, n) =>
          barriers := barriers + [Barrier(n, [], 0)];
          Send(Reply(c, Index(|barriers| - 1)));
      }
    }

    method HandleSync(r: Request)
      requires r.MutexLock? || r.MutexUnlock? || r.CondWait? || r.CondSignal? || r.CondBroadcast? || r.BarrierWait?
      modifies this
      ensures State() == Handle(old(State()), r).0 && sent == old(sent) + Handle(old(State()), r).1
    {
      hide DoLock, DoUnlock, DoCondWait, DoSignal, DoBroadcast, DoBarrierWait;
      match r {
        case MutexLock(c, m, time) => HandleMutexLock(c, m, time);
        case MutexUnlock(c, m, time) => HandleMutexUnlock(c, m, time);
        case CondWait(c, v, m, time) => HandleCondWait(c, v, m, time);
        case CondSignal(c, v, time) => HandleCondSignal(c, v, time);
        case CondBroadcast(c, v, time) => HandleCondBroadcast(c, v, time);
        case BarrierWait(c, b, time) => HandleBarrierWait(c, b, time);
      }
    }

    /** Handles one message. */
    method ProcessPacket(r: Request)
      modifies this
      ensures State() == Handle(old(State()), r).0 && sent == old(sent) + Handle(old(State()), r).1
      ensures old(Orderly() && Allowed(State(), Message(r)) && Accepted(State(), r)) ==> Orderly()
    {
      hide Handle, Inv, Allowed, Accepted;
      ghost var s := State();
      if r.FutexWait? || r.FutexWake? || r.FutexWakeOp? || r.FutexCmpRequeue? {
        HandleSyscall(r);
      } else if r.Spawn? || r.Start? || r.Exit? || r.Join? {
        HandleThread(r);
      } else if r.MutexInit? || r.CondInit? || r.BarrierInit? {
        HandleInit(r);
      } else {
        HandleSync(r);
      }
      KeepsOrder(s, Message(r));
    }

    /** Messages as they come, and the application's stores between them. */
    method Serve(es: seq<Event>)
      requires Orderly() && Servable(State(), es)
      modifies this
      ensures Orderly() && ServerRuns(old(State()), es, State())
      ensures sent == old(sent) + RunReplies(old(State()), es)
    {
      hide Allowed, Accepted, Handle, Inv, NextServer, EventReplies;
      assert es[0..] == es;
      for i := 0 to |es|
        invariant Orderly() && Servable(State(), es[i..])
        invariant forall t :: ServerRuns(State(), es[i..], t) ==> ServerRuns(old(State()), es, t)
        invariant sent + RunReplies(State(), es[i..]) == old(sent) + RunReplies(old(State()), es)
      {
        ghost var s, before := State(), sent;
        KeepsOrder(s, es[i]);
        assert es[i..][0] == es[i] && es[i..][1..] == es[i + 1..];
        Effect(s, es[i]);
        if es[i].Message? {
          ProcessPacket(es[i].r);
        } else {
          memory := memory[es[i].addr := es[i].word];
        }
        assert State() == NextServer(s, es[i]) && sent == before + EventReplies(s, es[i]);
        ghost var rest := RunReplies(State(), es[i + 1..]);
        assert before + (EventReplies(s, es[i]) + rest) == (before + EventReplies(s, es[i])) + rest;
      }
      assert es[|es|..] == [] && sent + [] == sent;
    }
  }

  /** What an event does to the state and what is sent for it. */
  lemma {:induction false} Effect(s: Server, e: Event)
    ensures e.Message? ==> NextServer(s, e) == Handle(s, e.r).0 && EventReplies(s, e) == Handle(s, e.r).1
    ensures e.Store? ==> NextServer(s, e) == s.(memory := s.memory[e.addr := e.word]) && EventReplies(s, e) == []
  {
  }

  lemma {:induction false} KeepsOrder(s: Server, e: Event)
    ensures (exists at :: Inv(s, at)) && Allowed(s, e) && (e.Message? ==> Accepted(s, e.r)) ==>
      exists at :: Inv(NextServer(s, e), at)
  {
    hide Inv, Allowed, Accepted, NextServer;
    if (exists at :: Inv(s, at)) && Allowed(s, e) && (e.Message? ==> Accepted(s, e.r)) {
      var at :| Inv(s, at);
      var at' := ServerStepOk(s, at, e);
    }
  }

  /** A whole simulation: the object that has served any run of events is in order, has answered
      mutexes, conditions and barriers in order, and every stalled thread's core is in one place. */
  method Simulate(tileCount: nat, threadsPerCore: nat, es: seq<Event>) returns (m: Mcp)
    requires tileCount > 0 && threadsPerCore > 0 && Servable(Fresh(tileCount, threadsPerCore), es)
    ensures fresh(m) && m.Orderly()
    ensures forall th :: HasSlot(m.State(), th) ==>
      && (SlotOf(m.State(), th).status == Stalled ==> exists p :: WaitsOnlyIn(m.State(), th.tile, p))
      && (SlotOf(m.State(), th).status == Running ==> forall q :: th.tile !in Queue(m.State(), q))
    ensures var s := Fresh(tileCount, threadsPerCore);
      && ToldOwners(m.sent) == Owners(RunGrants(s, es))
      && (forall x :: Requests(On(RunOps(s, es), x)) == GrantedOn(RunGrants(s, es), x) + MutexAt(m.State(), x).waiting)
      && (forall v :: RunWaits(es, v) == RunWakes(s, es, v) + WaitersAt(m.State(), v))
      && (forall b :: 0 <= b < |m.barriers| && m.barriers[b].count > 0 ==>
            RunAnswers(s, es, b) == Answers(Groups(RunArrivals(es, b), m.barriers[b].count)))
      && (forall k :: MadeAnswers(s, es, k) == Numbered(Callers(es, k), 0) && Made(m.State(), k) == |Callers(es, k)|)
      && CountsOf(m.barriers) == CountsAsked(es) && Indexed(m.sent) == AllMadeAnswers(s, es)
      && m.counter == |Spawners(es)| && m.exited == Leavers(s, es)
  {
    m := new Mcp(tileCount, threadsPerCore);
    ghost var s := m.State();
    hide InitServer, Inv, HasSlot, SlotOf, Queue, WaitsOnlyIn, ToldOwners, Owners, GrantedOn, On, Requests, MutexAt;
    hide WaitersAt, Answers, Groups, Fresh;
    m.Serve(es);
    hide ServerRuns, Servable;
    ghost var t := m.State();
    assert [] + RunReplies(s, es) == RunReplies(s, es);
    forall th | HasSlot(t, th)
      ensures SlotOf(t, th).status == Stalled ==> exists p :: WaitsOnlyIn(t, th.tile, p)
      ensures SlotOf(t, th).status == Running ==> forall q :: th.tile !in Queue(t, q)
    {
      StalledIffWaiting(s, es, t, th);
    }
    forall x: nat
      ensures Requests(On(RunOps(s, es), x)) == GrantedOn(RunGrants(s, es), x) + MutexAt(t, x).waiting
      ensures ToldOwners(RunReplies(s, es)) == Owners(RunGrants(s, es))
    {
      MutexesInOrder(s, es, t, x);
    }
    MutexesInOrder(s, es, t, 0);
    forall v: nat
      ensures RunWaits(es, v) == RunWakes(s, es, v) + WaitersAt(t, v)
    {
      ConditionsInOrder(s, es, t, v);
    }
    forall b: nat | b < |t.barriers| && t.barriers[b].count > 0
      ensures RunAnswers(s, es, b) == Answers(Groups(RunArrivals(es, b), t.barriers[b].count))
    {
      BarriersInBatches(s, es, t, b);
    }
    hide Callers, Made, MadeAnswers, CountsOf;
    forall k
      ensures MadeAnswers(s, es, k) == Numbered(Callers(es, k), 0) && Made(t, k) == |Callers(es, k)|
      ensures CountsOf(t.barriers) == CountsAsked(es)
    {
      ObjectsNumbered(s, es, t, k);
    }
    ObjectsNumbered(s, es, t, OfMutex);
    NumbersToMakers(s, es);
    SpawnsNumbered(s, es, t);
    MainSlot(s);
    ExitsRecorded(s, es, t, Thread(0, 0));
  }

  lemma {:induction false} MainSlot(s: Server)
    requires InitServer(s)
    ensures HasSlot(s, Thread(0, 0))
  {
  }

  lemma {:induction false} StallSlotSize(s: Server, c: Core, j: nat)
    ensures |StallSlot(s, c, j).tiles| == |s.tiles|
  {
  }

  lemma {:induction false} ScheduleKeepsCounter(s: Server, c: Core, d: Thread)
    ensures ScheduleThread(s, c, d).counter == s.counter
  {
  }

  lemma {:induction false} StallKeepsJoiners(s: Server, joiners: map<Thread, Thread>, c: Core)
    ensures StallThread(s.(joiners := joiners), c) == StallThread(s, c).(joiners := joiners)
  {
  }

  lemma {:induction false} Prepend(a: seq<Core>, b: seq<Core>, c: seq<Core>)
    ensures a + (b + c) == (a + b) + c && [] + b == b && a + [] == a
  {
  }

  lemma {:induction false} WakeUpUnfold(s: Server, addr: int, n: int)
    ensures var q := QueueOf(s.futexes, addr);
      if n <= 0 || q == [] then WakeUp(s, addr, n) == (s, [])
      else
        var (t, more) := WakeUp(Dequeue(s, addr), addr, n - 1); WakeUp(s, addr, n) == (t, [q[0]] + more)
  {
    hide Dequeue;
  }

  lemma {:induction false} WokenMore(woken: seq<Core>, c: Core)
    ensures WokenReplies(woken + [c]) == WokenReplies(woken) + [Reply(c, Result(0))]
  {
  }

  lemma {:induction false} NoWoken()
    ensures WokenReplies([]) == []
  {
  }

  lemma {:induction false} ResumeKeepsConds(s: Server, v: nat, c: Core)
    requires v < |s.conds|
    ensures ResumeThread(SetCond(s, v, []), c) == SetCond(ResumeThread(s, c), v, [])
  {
  }

  lemma {:induction false} LockKeepsAllConds(s: Server, v: nat, m: nat, c: Core)
    requires v < |s.conds|
    ensures LockMutex(s, m, c).0.conds == s.conds
    ensures LockMutex(SetCond(s, v, []), m, c) == (SetCond(LockMutex(s, m, c).0, v, []), LockMutex(s, m, c).1)
  {
    if m < |s.mutexes| {
      LockKeepsConds(s, v, [], m, c);
    }
  }

  /** Resuming a core that was resumed before changes nothing. */
  lemma {:induction false} ResumeAgain(s: Server, c: Core, d: Core)
    requires d == c || ResumeThread(s, d) == s
    ensures ResumeThread(ResumeThread(s, c), d) == ResumeThread(s, c)
  {
    var t := ResumeThread(s, c);
    if d < |s.tiles| && 0 <= s.tiles[d].last < |s.tiles[d].slots| {
      assert d != c ==> t.tiles[d] == s.tiles[d] && s.tiles == s.tiles[d := SetRunning(s.tiles[d], s.tiles[d].last)];
      assert d != c ==> s.tiles[d] == SetRunning(s.tiles[d], s.tiles[d].last);
      assert SetRunning(t.tiles[d], t.tiles[d].last) == t.tiles[d];
      assert t.tiles[d := t.tiles[d]] == t.tiles;
    }
  }
}
