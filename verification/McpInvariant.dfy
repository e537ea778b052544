/** What every message handled by the master keeps: the link between the status of the threads
    and the queues in which they wait. */
module McpInvariant {
  import opened Options
  import opened SyncObjects
  import opened Threads
  import opened MasterControl

  /** Where a stalled thread can wait. */
  datatype Place = OnMutex(m: nat) | OnCond(v: nat) | OnBarrier(b: nat) | OnFutex(addr: int) | OnJoin(th: Thread)

  ghost function Queue(s: Server, p: Place): seq<Core> {
    match p
    case OnMutex(m) => if m < |s.mutexes| then s.mutexes[m].waiting else []
    case OnCond(v) => if v < |s.conds| then Cores(s.conds[v]) else []
    case OnBarrier(b) => if b < |s.barriers| then s.barriers[b].waiting else []
    case OnFutex(a) => QueueOf(s.futexes, a)
    case OnJoin(th) => if th in s.joiners then [s.joiners[th].tile] else []
  }

  ghost function Front(s: Server, c: Core): Status {
    if c < |s.tiles| then FrontStatus(c == 0, s.tiles[c]) else Idle
  }

  ghost function LineOf(s: Server, c: Core): seq<nat> {
    if c < |s.tiles| then Line(c == 0, s.tiles[c]) else []
  }

  ghost predicate HasSlot(s: Server, th: Thread) {
    th.tile < |s.tiles| && th.idx < |s.tiles[th.tile].slots|
  }

  ghost function SlotOf(s: Server, th: Thread): Slot
    requires HasSlot(s, th)
  {
    s.tiles[th.tile].slots[th.idx]
  }

  /** Every core's line of threads is in order, and the threads told to start are the first ones. */
  ghost predicate TilesOk(s: Server) {
    && s.tiles != []
    && (forall c :: 0 <= c < |s.tiles| ==> TileOk(c == 0, s.tiles[c]))
    && (forall th :: th in s.starting <==> Front(s, th.tile) == Initializing && LineOf(s, th.tile)[0] == th.idx)
  }

  /** `at` gives the place of every core whose thread is stalled: it is in that queue, once, and
      in no other; and no other core is in any queue. */
  ghost predicate Parked(s: Server, at: map<Core, Place>) {
    && (forall p, c :: c in Queue(s, p) ==> c in at && at[c] == p)
    && (forall c :: c in at ==> c in Queue(s, at[c]))
    && (forall p :: NoRepeats(Queue(s, p)))
    && (forall c :: c in at <==> Front(s, c) == Stalled)
  }

  /** A thread that is joined has not left, and who joins it is the thread its core stalled last. */
  ghost predicate JoinersOk(s: Server) {
    forall th :: th in s.joiners ==>
      && HasSlot(s, th) && SlotOf(s, th).status != Idle
      && s.joiners[th].tile < |s.tiles| && s.tiles[s.joiners[th].tile].last == s.joiners[th].idx
  }

  /** Every issued id is in the table, and belongs to a thread in use unless that has left; the
      table's other entries name the main thread's slot. */
  ghost predicate IdsOk(s: Server) {
    && (forall i :: 0 <= i < |s.ids| ==> HasSlot(s, s.ids[i]))
    && (s.counter > 0 ==> s.counter < |s.ids|)
    && (forall t :: 0 < t <= s.counter && t !in s.exited ==>
          SlotOf(s, s.ids[t]).status != Idle && SlotOf(s, s.ids[t]).id == t)
    && (forall i :: 0 <= i < |s.ids| && !(0 < i <= s.counter) ==> s.ids[i] == Thread(0, 0))
    && (forall t :: t in s.exited ==> t <= s.counter)
    && (forall th :: HasSlot(s, th) ==> SlotOf(s, th).id <= s.counter)
  }

  ghost predicate ThreadsOk(s: Server, at: map<Core, Place>) {
    TilesOk(s) && Parked(s, at) && JoinersOk(s) && IdsOk(s)
  }

  ghost predicate ObjectsOk(s: Server) {
    && (forall m :: 0 <= m < |s.mutexes| ==> MutexOk(s.mutexes[m]))
    && (forall v, i :: 0 <= v < |s.conds| && 0 <= i < |s.conds[v]| ==> s.conds[v][i].mutex < |s.mutexes|)
    && (forall b :: 0 <= b < |s.barriers| && s.barriers[b].waiting != [] ==>
        |s.barriers[b].waiting| < s.barriers[b].count)
  }

  ghost predicate Inv(s: Server, at: map<Core, Place>) {
    ThreadsOk(s, at) && ObjectsOk(s) && !s.aborted
  }

  // ----- one core goes into a queue or comes out of it -----

  /** The step from `s` to `t` puts `x` in place of tile `c`, keeping its line and its slots' ids. */
  ghost predicate Retiled(s: Server, t: Server, c: Core, x: Tile) {
    && c < |s.tiles| && t.tiles == s.tiles[c := x] && t.starting == s.starting && t.ids == s.ids
    && t.counter == s.counter && t.exited == s.exited
    && TileOk(c == 0, x) && Line(c == 0, x) == LineOf(s, c) && FrontStatus(c == 0, x) != Initializing
    && Front(s, c) != Initializing
    && |x.slots| == |s.tiles[c].slots|
    && forall j :: 0 <= j < |x.slots| ==>
         x.slots[j].id == s.tiles[c].slots[j].id && (x.slots[j].status == Idle <==> s.tiles[c].slots[j].status == Idle)
  }

  lemma {:induction false} RetiledOk(s: Server, t: Server, c: Core, x: Tile)
    requires TilesOk(s) && IdsOk(s) && Retiled(s, t, c, x)
    ensures TilesOk(t) && IdsOk(t)
    ensures forall d :: Front(t, d) == if d == c then FrontStatus(c == 0, x) else Front(s, d)
    ensures forall th :: HasSlot(t, th) <==> HasSlot(s, th)
    ensures forall th :: HasSlot(s, th) ==> (SlotOf(t, th).status == Idle <==> SlotOf(s, th).status == Idle)
  {
    hide TileOk, Line, FrontStatus;
    assert forall d :: LineOf(t, d) == LineOf(s, d);
    assert forall th :: HasSlot(s, th) ==> SlotOf(t, th).id == SlotOf(s, th).id;
  }

  lemma {:induction false} ParkedIn(s: Server, t: Server, p: Place, c: Core, at: map<Core, Place>)
    requires Parked(s, at) && Front(s, c) == Running
    requires forall d :: Front(t, d) == if d == c then Stalled else Front(s, d)
    requires forall q :: Queue(t, q) == if q == p then Queue(s, p) + [c] else Queue(s, q)
    ensures Parked(t, at[c := p])
  {
    hide Queue, Front;
    assert c !in Queue(s, p);
    assert NoRepeats(Queue(s, p));
    AppendNew(Queue(s, p), c);
    hide NoRepeats;
    assert forall q, d :: d in Queue(t, q) ==> d in Queue(s, q) || (q == p && d == c);
  }

  /** The first core of the place `p` is gone from all queues. */
  lemma {:induction false} QueuesOut(s: Server, t: Server, p: Place, at: map<Core, Place>)
    requires Parked(s, at) && Queue(s, p) != []
    requires forall q :: Queue(t, q) == if q == p then Queue(s, p)[1..] else Queue(s, q)
    ensures forall q :: NoRepeats(Queue(t, q))
    ensures forall q, d :: d in Queue(t, q) <==> d in Queue(s, q) && d != Queue(s, p)[0]
  {
    hide Queue, Front;
    var c := Queue(s, p)[0];
    assert c in Queue(s, p) && NoRepeats(Queue(s, p));
    TailWithout(Queue(s, p));
    hide NoRepeats;
    assert at[c] == p && forall q :: q != p ==> c !in Queue(s, q);
  }

  lemma {:induction false} ParkedOut(s: Server, t: Server, p: Place, at: map<Core, Place>)
    requires Parked(s, at) && Queue(s, p) != []
    requires forall d :: Front(t, d) == if d == Queue(s, p)[0] then Running else Front(s, d)
    requires forall q :: Queue(t, q) == if q == p then Queue(s, p)[1..] else Queue(s, q)
    ensures Parked(t, at - {Queue(s, p)[0]})
  {
    hide Queue, Front, NoRepeats;
    QueuesOut(s, t, p, at);
    var at' := at - {Queue(s, p)[0]};
    forall c | c in at'
      ensures c in Queue(t, at'[c])
    {
      assert c in Queue(s, at[c]);
    }
  }

  lemma {:induction false} TailWithout(q: seq<nat>)
    requires NoRepeats(q) && q != []
    ensures NoRepeats(q[1..]) && forall x :: x in q[1..] <==> x in q && x != q[0]
  {
    assert forall i :: 0 <= i < |q[1..]| ==> q[1..][i] == q[i + 1];
  }

  lemma {:induction false} JoinersAway(s: Server, at: map<Core, Place>, c: Core)
    requires Parked(s, at) && Front(s, c) != Stalled
    ensures forall th :: th in s.joiners ==> s.joiners[th].tile != c
  {
    forall th | th in s.joiners
      ensures s.joiners[th].tile != c
    {
      assert s.joiners[th].tile in Queue(s, OnJoin(th));
    }
  }

  ghost predicate SameBut(s: Server, t: Server) {
    && t.starting == s.starting && t.ids == s.ids && t.counter == s.counter && t.exited == s.exited
    && t.joiners == s.joiners
  }

  lemma {:induction false} JoinersKept(s: Server, t: Server)
    requires JoinersOk(s) && t.joiners == s.joiners && |t.tiles| == |s.tiles|
    requires forall th :: HasSlot(t, th) <==> HasSlot(s, th)
    requires forall th :: th in s.joiners && HasSlot(s, th) && SlotOf(s, th).status != Idle ==>
      SlotOf(t, th).status != Idle
    requires forall th :: th in s.joiners ==> s.joiners[th].tile < |s.tiles|
    requires forall th :: th in s.joiners ==>
      t.tiles[s.joiners[th].tile].last == s.tiles[s.joiners[th].tile].last
    ensures JoinersOk(t)
  {
    hide HasSlot, SlotOf;
  }

  /** The running thread of `c` stalls in the place `p`. */
  lemma {:induction false} BlockOk(s: Server, t: Server, p: Place, c: Core, at: map<Core, Place>)
    requires ThreadsOk(s, at) && Front(s, c) == Running
    requires t.tiles == StallThread(s, c).tiles && t.aborted == StallThread(s, c).aborted && SameBut(s, t)
    requires forall q :: Queue(t, q) == if q == p then Queue(s, p) + [c] else Queue(s, q)
    ensures ThreadsOk(t, at[c := p]) && t.aborted == s.aborted && Front(t, c) == Stalled
  {
    Stalls(s, t, c);
    hide Queue, Front, TilesOk, IdsOk, StallThread, HasSlot, SlotOf;
    ParkedIn(s, t, p, c, at);
    JoinersAway(s, at, c);
    hide Parked;
    JoinersKept(s, t);
  }

  /** What stalling the running thread does to the tiles. */
  lemma {:induction false} Stalls(s: Server, t: Server, c: Core)
    requires TilesOk(s) && IdsOk(s) && Front(s, c) == Running
    requires t.tiles == StallThread(s, c).tiles && t.starting == s.starting
    requires t.ids == s.ids && t.counter == s.counter && t.exited == s.exited
    ensures TilesOk(t) && IdsOk(t) && StallThread(s, c).aborted == s.aborted && |t.tiles| == |s.tiles|
    ensures forall d :: Front(t, d) == if d == c then Stalled else Front(s, d)
    ensures forall th :: HasSlot(t, th) <==> HasSlot(s, th)
    ensures forall th :: HasSlot(s, th) ==> (SlotOf(t, th).status == Idle <==> SlotOf(s, th).status == Idle)
    ensures forall d :: 0 <= d < |s.tiles| && d != c ==> t.tiles[d].last == s.tiles[d].last
  {
    StallRetiles(s, t, c);
    hide TilesOk, IdsOk, StallThread, Front, LineOf, HasSlot, SlotOf, FrontStatus;
    RetiledOk(s, t, c, SetStalled(s.tiles[c], LineOf(s, c)[0]));
  }

  lemma {:induction false} StallRetiles(s: Server, t: Server, c: Core)
    requires TilesOk(s) && Front(s, c) == Running
    requires t.tiles == StallThread(s, c).tiles && t.starting == s.starting
    requires t.ids == s.ids && t.counter == s.counter && t.exited == s.exited
    ensures c < |s.tiles| && LineOf(s, c) != [] && LineOf(s, c)[0] < |s.tiles[c].slots|
    ensures var x := SetStalled(s.tiles[c], LineOf(s, c)[0]);
      && Retiled(s, t, c, x) && FrontStatus(c == 0, x) == Stalled && t.tiles == s.tiles[c := x]
      && StallThread(s, c).aborted == s.aborted
  {
    StallOk(c == 0, s.tiles[c]);
    hide TileOk, Line, FrontStatus;
  }

  /** What resuming the thread stalled last does to the tiles. */
  lemma {:induction false} Resumes(s: Server, t: Server, c: Core)
    requires TilesOk(s) && IdsOk(s) && Front(s, c) == Stalled
    requires t.tiles == ResumeThread(s, c).tiles && t.starting == s.starting
    requires t.ids == s.ids && t.counter == s.counter && t.exited == s.exited
    ensures TilesOk(t) && IdsOk(t) && ResumeThread(s, c).aborted == s.aborted && |t.tiles| == |s.tiles|
    ensures forall d :: Front(t, d) == if d == c then Running else Front(s, d)
    ensures forall th :: HasSlot(t, th) <==> HasSlot(s, th)
    ensures forall th :: HasSlot(s, th) ==> (SlotOf(t, th).status == Idle <==> SlotOf(s, th).status == Idle)
    ensures forall d :: 0 <= d < |s.tiles| ==> t.tiles[d].last == s.tiles[d].last
  {
    ResumeRetiles(s, t, c);
    hide TilesOk, IdsOk, ResumeThread, Front, LineOf, HasSlot, SlotOf, FrontStatus;
    RetiledOk(s, t, c, SetRunning(s.tiles[c], s.tiles[c].last));
  }

  lemma {:induction false} ResumeRetiles(s: Server, t: Server, c: Core)
    requires TilesOk(s) && Front(s, c) == Stalled
    requires t.tiles == ResumeThread(s, c).tiles && t.starting == s.starting
    requires t.ids == s.ids && t.counter == s.counter && t.exited == s.exited
    ensures c < |s.tiles| && 0 <= s.tiles[c].last < |s.tiles[c].slots|
    ensures var x := SetRunning(s.tiles[c], s.tiles[c].last);
      && Retiled(s, t, c, x) && FrontStatus(c == 0, x) == Running && t.tiles == s.tiles[c := x]
      && ResumeThread(s, c).aborted == s.aborted
  {
    ResumeOk(c == 0, s.tiles[c]);
    hide TileOk, Line, FrontStatus;
  }

  /** The first core in the place `p` comes out and runs. */
  lemma {:induction false} UnblockOk(s: Server, t: Server, p: Place, at: map<Core, Place>)
    requires ThreadsOk(s, at) && Queue(s, p) != []
    requires t.tiles == ResumeThread(s, Queue(s, p)[0]).tiles && t.aborted == ResumeThread(s, Queue(s, p)[0]).aborted
    requires SameBut(s, t)
    requires forall q :: Queue(t, q) == if q == p then Queue(s, p)[1..] else Queue(s, q)
    ensures Front(s, Queue(s, p)[0]) == Stalled && Front(t, Queue(s, p)[0]) == Running
    ensures ThreadsOk(t, at - {Queue(s, p)[0]}) && t.aborted == s.aborted
  {
    hide Queue, Front, TilesOk, IdsOk, ResumeThread, HasSlot, SlotOf;
    var c := Queue(s, p)[0];
    FirstStalled(s, p, at);
    Resumes(s, t, c);
    ParkedOut(s, t, p, at);
    hide Parked;
    JoinersKept(s, t);
  }

  lemma {:induction false} FirstStalled(s: Server, p: Place, at: map<Core, Place>)
    requires Parked(s, at) && Queue(s, p) != []
    ensures Front(s, Queue(s, p)[0]) == Stalled && Queue(s, p)[0] in at && at[Queue(s, p)[0]] == p
  {
    hide Queue, Front;
    assert Queue(s, p)[0] in Queue(s, p);
  }

  /** Nothing happens to threads and queues. */
  lemma {:induction false} QuietOk(s: Server, t: Server, at: map<Core, Place>)
    requires ThreadsOk(s, at) && t.tiles == s.tiles && SameBut(s, t)
    requires forall q :: Queue(t, q) == Queue(s, q)
    ensures ThreadsOk(t, at) && forall d :: Front(t, d) == Front(s, d)
  {
    hide Queue, TilesOk, JoinersOk, IdsOk, Front, NoRepeats;
    QuietTiles(s, t);
  }

  lemma {:induction false} QuietTiles(s: Server, t: Server)
    requires TilesOk(s) && JoinersOk(s) && IdsOk(s) && t.tiles == s.tiles && SameBut(s, t)
    ensures TilesOk(t) && JoinersOk(t) && IdsOk(t) && forall d :: Front(t, d) == Front(s, d)
  {
    hide TileOk, Line, FrontStatus;
    assert forall d :: Front(t, d) == Front(s, d) && LineOf(t, d) == LineOf(s, d);
    assert forall th :: HasSlot(t, th) <==> HasSlot(s, th);
  }

  // ----- which queue a change of the objects touches -----

  ghost predicate SameObjects(s: Server, t: Server) {
    && t.conds == s.conds && t.barriers == s.barriers && t.futexes == s.futexes && t.joiners == s.joiners
  }

  lemma {:induction false} MutexQueues(s: Server, t: Server, m: nat)
    requires m < |s.mutexes| == |t.mutexes| && SameObjects(s, t)
    requires forall k :: 0 <= k < |s.mutexes| && k != m ==> t.mutexes[k] == s.mutexes[k]
    ensures forall q :: Queue(t, q) == if q == OnMutex(m) then t.mutexes[m].waiting else Queue(s, q)
  {
  }

  lemma {:induction false} CondQueues(s: Server, t: Server, v: nat, ws: seq<CondWaiter>)
    requires v < |s.conds| && t.conds == s.conds[v := ws]
    requires t.mutexes == s.mutexes && t.barriers == s.barriers && t.futexes == s.futexes && t.joiners == s.joiners
    ensures forall q :: Queue(t, q) == if q == OnCond(v) then Cores(ws) else Queue(s, q)
  {
  }

  lemma {:induction false} BarrierQueues(s: Server, t: Server, b: nat, x: Barrier)
    requires b < |s.barriers| && t.barriers == s.barriers[b := x]
    requires t.mutexes == s.mutexes && t.conds == s.conds && t.futexes == s.futexes && t.joiners == s.joiners
    ensures forall q :: Queue(t, q) == if q == OnBarrier(b) then x.waiting else Queue(s, q)
  {
  }

  lemma {:induction false} FutexQueues(s: Server, t: Server, a: int, ws: seq<Core>)
    requires t.futexes == s.futexes[a := ws]
    requires t.mutexes == s.mutexes && t.conds == s.conds && t.barriers == s.barriers && t.joiners == s.joiners
    ensures forall q :: Queue(t, q) == if q == OnFutex(a) then ws else Queue(s, q)
  {
  }

  // ----- mutexes -----

  lemma {:induction false} LockMutexOk(s: Server, m: nat, c: Core, at: map<Core, Place>)
    requires Inv(s, at) && Front(s, c) == Running && m < |s.mutexes|
    ensures var (t, owns) := LockMutex(s, m, c);
      Inv(t, if owns then at else at[c := OnMutex(m)]) && (owns <==> s.mutexes[m].owner.None?)
    ensures Front(LockMutex(s, m, c).0, c) == if LockMutex(s, m, c).1 then Running else Stalled
  {
    hide ThreadsOk, Queue, Front, StallThread;
    StallFrame(s, c);
    var (t, owns) := LockMutex(s, m, c);
    MutexQueues(s, t, m);
    if owns {
      assert Queue(s, OnMutex(m)) == s.mutexes[m].waiting by { MutexQueue(s, m); }
      QuietOk(s, t, at);
    } else {
      MutexQueue(s, m);
      BlockOk(s, t, OnMutex(m), c, at);
    }
  }

  lemma {:induction false} MutexQueue(s: Server, m: nat)
    requires m < |s.mutexes|
    ensures Queue(s, OnMutex(m)) == s.mutexes[m].waiting
  {
  }

  lemma {:induction false} StallFrame(s: Server, c: Core)
    ensures var t := StallThread(s, c); s == t.(tiles := s.tiles, aborted := s.aborted)
  {
  }

  lemma {:induction false} ResumeFrame(s: Server, c: Core)
    ensures var t := ResumeThread(s, c); s == t.(tiles := s.tiles, aborted := s.aborted)
  {
  }

  lemma {:induction false} UnlockMutexOk(s: Server, m: nat, c: Core, at: map<Core, Place>)
    requires Inv(s, at) && m < |s.mutexes| && s.mutexes[m].owner == Some(c)
    ensures var (t, next) := UnlockMutex(s, m, c);
      Inv(t, if next.Some? then at - {next.value} else at)
    ensures var (t, next) := UnlockMutex(s, m, c);
      next == if s.mutexes[m].waiting == [] then None else Some(s.mutexes[m].waiting[0])
    ensures var (t, next) := UnlockMutex(s, m, c);
      next.Some? ==> Front(s, next.value) == Stalled && next.value in at && at[next.value] == OnMutex(m)
  {
    hide ThreadsOk, Queue, Front, ResumeThread, Parked;
    var (t, next) := UnlockMutex(s, m, c);
    MutexQueue(s, m);
    if next.Some? {
      ResumeFrame(s, next.value);
      MutexQueues(s, t, m);
      UnblockOk(s, t, OnMutex(m), at);
      assert Parked(s, at) by { Unfold(s, at); }
      FirstStalled(s, OnMutex(m), at);
    } else {
      MutexQueues(s, t, m);
      QuietOk(s, t, at);
    }
  }

  lemma {:induction false} ParkedOf(s: Server, at: map<Core, Place>)
    requires Inv(s, at)
    ensures Parked(s, at)
  {
  }

  lemma {:induction false} Unfold(s: Server, at: map<Core, Place>)
    requires ThreadsOk(s, at)
    ensures TilesOk(s) && Parked(s, at) && JoinersOk(s) && IdsOk(s)
  {
  }

  // ----- condition variables -----

  lemma {:induction false} CondQueue(s: Server, v: nat)
    requires v < |s.conds|
    ensures Queue(s, OnCond(v)) == Cores(s.conds[v])
  {
  }

  lemma {:induction false} CoresAppend(ws: seq<CondWaiter>, w: CondWaiter)
    ensures Cores(ws + [w]) == Cores(ws) + [w.core]
  {
  }

  lemma {:induction false} CondWaitOk(s: Server, c: Core, v: nat, m: nat, time: nat, at: map<Core, Place>)
    requires Inv(s, at) && Front(s, c) == Running && v < |s.conds| && m < |s.mutexes| && s.mutexes[m].owner == Some(c)
    ensures var next := Unlock(s.mutexes[m]).owner;
      var at1 := at[c := OnCond(v)];
      && (next.Some? ==> next.value in at1 && at1[next.value] == OnMutex(m))
      && Inv(DoCondWait(s, c, v, m, time).0, if next.Some? then at1 - {next.value} else at1)
  {
    hide ThreadsOk, Queue, Front, StallThread, Cores, UnlockMutex;
    StallFrame(s, c);
    var w := CondWaiter(c, m, time);
    var t := SetCond(StallThread(s, c), v, s.conds[v] + [w]);
    CondQueues(s, t, v, s.conds[v] + [w]);
    CoresAppend(s.conds[v], w);
    CondQueue(s, v);
    BlockOk(s, t, OnCond(v), c, at);
    UnlockMutexOk(t, m, c, at[c := OnCond(v)]);
  }

  lemma {:induction false} SignalOk(s: Server, c: Core, v: nat, time: nat, at: map<Core, Place>)
    requires Inv(s, at) && v < |s.conds| && s.conds[v] != []
    ensures var w := s.conds[v][0];
      && w.core in at && at[w.core] == OnCond(v) && w.mutex < |s.mutexes|
      && Inv(DoSignal(s, c, v, time).0,
             if s.mutexes[w.mutex].owner.None? then at - {w.core} else at[w.core := OnMutex(w.mutex)])
  {
    hide ThreadsOk, Queue, Front, ResumeThread, Cores, LockMutex;
    var ws, w := s.conds[v], s.conds[v][0];
    var t := ResumeThread(SetCond(s, v, Erased(ws)), w.core);
    ResumeFrame(s, w.core);
    ResumeFrame(SetCond(s, v, Erased(ws)), w.core);
    ResumeSame(s, SetCond(s, v, Erased(ws)), w.core);
    CondQueue(s, v);
    CoresFirst(ws);
    CondQueues(s, t, v, Erased(ws));
    ErasedCores(ws);
    UnblockOk(s, t, OnCond(v), at);
    Unfold(s, at);
    FirstStalled(s, OnCond(v), at);
    LockMutexOk(t, w.mutex, w.core, at - {w.core});
    assert (at - {w.core})[w.core := OnMutex(w.mutex)] == at[w.core := OnMutex(w.mutex)];
  }

  lemma {:induction false} CoresFirst(ws: seq<CondWaiter>)
    requires ws != []
    ensures Cores(ws)[0] == ws[0].core && Cores(ws)[1..] == Cores(ws[1..]) && Cores(ws) != []
  {
  }

  lemma {:induction false} ResumeSame(s: Server, t: Server, c: Core)
    requires t.tiles == s.tiles && t.aborted == s.aborted
    ensures ResumeThread(t, c).tiles == ResumeThread(s, c).tiles
    ensures ResumeThread(t, c).aborted == ResumeThread(s, c).aborted
  {
    hide SetRunning;
    if c < |s.tiles| && 0 <= s.tiles[c].last < |s.tiles[c].slots| {
      var x := s.tiles[c := SetRunning(s.tiles[c], s.tiles[c].last)];
      assert ResumeThread(s, c) == s.(tiles := x);
      assert ResumeThread(t, c) == t.(tiles := x);
    }
  }

  lemma {:induction false} LockKeepsConds(s: Server, v: nat, ws: seq<CondWaiter>, m: nat, c: Core)
    requires v < |s.conds| && m < |s.mutexes|
    ensures LockMutex(SetCond(s, v, ws), m, c) == (SetCond(LockMutex(s, m, c).0, v, ws), LockMutex(s, m, c).1)
    ensures LockMutex(s, m, c).0.conds == s.conds && |LockMutex(s, m, c).0.mutexes| == |s.mutexes|
  {
  }

  /** The waiters still to be woken by a broadcast are put back in place of the empty list. */
  lemma {:induction false} AwakenOk(s: Server, v: nat, ws: seq<CondWaiter>,
      at: map<Core, Place>) returns (at': map<Core, Place>)
    requires v < |s.conds| && s.conds[v] == [] && Inv(SetCond(s, v, ws), at)
    ensures Inv(Awaken(s, ws).0, at')
    decreases |ws|
  {
    hide ThreadsOk, Queue, Front, ResumeThread, Cores, LockMutex, ObjectsOk;
    if ws == [] {
      at' := at;
      assert SetCond(s, v, ws) == s;
    } else {
      var u, w := SetCond(s, v, ws), ws[0];
      var t := ResumeThread(s, w.core);
      AwakenFirst(s, v, ws, at);
      LockKeepsConds(t, v, ws[1..], w.mutex, w.core);
      LockMutexOk(SetCond(t, v, ws[1..]), w.mutex, w.core, at - {w.core});
      at' := AwakenOk(LockMutex(t, w.mutex, w.core).0, v, ws[1..],
        if LockMutex(t, w.mutex, w.core).1 then at - {w.core} else (at - {w.core})[w.core := OnMutex(w.mutex)]);
    }
  }

  lemma {:induction false} AwakenFirst(s: Server, v: nat, ws: seq<CondWaiter>, at: map<Core, Place>)
    requires v < |s.conds| && s.conds[v] == [] && Inv(SetCond(s, v, ws), at) && ws != []
    ensures var t := ResumeThread(s, ws[0].core);
      && t.conds == s.conds && t.mutexes == s.mutexes && ws[0].mutex < |s.mutexes|
      && Inv(SetCond(t, v, ws[1..]), at - {ws[0].core}) && Front(SetCond(t, v, ws[1..]), ws[0].core) == Running
  {
    hide ThreadsOk, Queue, Front, ResumeThread, Cores;
    var u, w := SetCond(s, v, ws), ws[0];
    ResumeFrame(s, w.core);
    ResumeSame(u, s, w.core);
    var t := SetCond(ResumeThread(s, w.core), v, ws[1..]);
    assert u.conds[v] == ws && u.conds[v][0] == w;
    CondQueue(u, v);
    CoresFirst(ws);
    assert t.conds == u.conds[v := ws[1..]];
    CondQueues(u, t, v, ws[1..]);
    UnblockOk(u, t, OnCond(v), at);
    AwakenObjects(s, v, ws);
  }

  lemma {:induction false} AwakenObjects(s: Server, v: nat, ws: seq<CondWaiter>)
    requires v < |s.conds| && ObjectsOk(SetCond(s, v, ws)) && ws != []
    ensures ws[0].mutex < |s.mutexes| && ObjectsOk(SetCond(s, v, ws[1..]))
  {
    var u, t := SetCond(s, v, ws), SetCond(s, v, ws[1..]);
    assert u.conds[v][0] == ws[0];
    forall k, i | 0 <= k < |t.conds| && 0 <= i < |t.conds[k]|
      ensures t.conds[k][i].mutex < |t.mutexes|
    {
      assert t.conds[k][i] == if k == v then u.conds[k][i + 1] else u.conds[k][i];
    }
  }

  lemma {:induction false} BroadcastOk(s: Server, c: Core, v: nat, time: nat,
      at: map<Core, Place>) returns (at': map<Core, Place>)
    requires Inv(s, at) && v < |s.conds|
    ensures Inv(DoBroadcast(s, c, v, time).0, at')
  {
    hide Awaken;
    var t := SetCond(s, v, []);
    assert SetCond(t, v, s.conds[v]) == s;
    at' := AwakenOk(t, v, s.conds[v], at);
  }

  // ----- barriers -----

  lemma {:induction false} BarrierQueue(s: Server, b: nat)
    requires b < |s.barriers|
    ensures Queue(s, OnBarrier(b)) == s.barriers[b].waiting
  {
  }

  ghost function SetBarrier(s: Server, b: nat, x: Barrier): Server
    requires b < |s.barriers|
  {
    s.(barriers := s.barriers[b := x])
  }

  /** Releasing the cores `cs` that wait in the barrier `b`. */
  lemma {:induction false} ResumeAllOk(s: Server, b: nat, cs: seq<Core>, at: map<Core, Place>)
    requires b < |s.barriers| && s.barriers[b].waiting == []
    requires ThreadsOk(SetBarrier(s, b, s.barriers[b].(waiting := cs)), at)
    ensures var t := ResumeAll(s, cs);
      && ThreadsOk(t, at - set c | c in cs) && t.aborted == s.aborted
      && t.mutexes == s.mutexes && t.conds == s.conds && t.barriers == s.barriers
    decreases |cs|
  {
    hide ThreadsOk, Queue, Front, ResumeThread;
    if cs == [] {
      assert SetBarrier(s, b, s.barriers[b].(waiting := cs)) == s;
      assert at - (set c | c in cs) == at;
    } else {
      var u := SetBarrier(s, b, s.barriers[b].(waiting := cs));
      var t := ResumeThread(s, cs[0]);
      ResumeFrame(s, cs[0]);
      ResumeSame(u, s, cs[0]);
      var x := SetBarrier(t, b, s.barriers[b].(waiting := cs[1..]));
      BarrierQueue(u, b);
      assert x.barriers == u.barriers[b := s.barriers[b].(waiting := cs[1..])];
      BarrierQueues(u, x, b, s.barriers[b].(waiting := cs[1..]));
      UnblockOk(u, x, OnBarrier(b), at);
      ResumeAllOk(t, b, cs[1..], at - {cs[0]});
      assert (at - {cs[0]}) - (set c | c in cs[1..]) == at - (set c | c in cs) by {
        assert cs == [cs[0]] + cs[1..];
      }
    }
  }

  lemma {:induction false} BarrierWaitOk(s: Server, c: Core, b: nat, time: nat, at: map<Core, Place>)
    requires Inv(s, at) && Front(s, c) == Running && b < |s.barriers| && s.barriers[b].count >= 1
    ensures var (x, woken) := Arrive(s.barriers[b], c, time);
      Inv(DoBarrierWait(s, c, b, time).0, at[c := OnBarrier(b)] - set d | d in woken)
  {
    hide ThreadsOk, Queue, Front, StallThread, ResumeAll;
    StallFrame(s, c);
    var (x, woken) := Arrive(s.barriers[b], c, time);
    var w := s.barriers[b].waiting + [c];
    var u := StallThread(s, c).(barriers := s.barriers[b := x.(waiting := w)]);
    BarrierQueue(s, b);
    BarrierQueues(s, u, b, x.(waiting := w));
    BlockOk(s, u, OnBarrier(b), c, at);
    var t := StallThread(s, c).(barriers := s.barriers[b := x]);
    if woken != [] {
      assert u == SetBarrier(t, b, x.(waiting := w));
      ResumeAllOk(t, b, woken, at[c := OnBarrier(b)]);
    } else {
      assert u == t && ResumeAll(t, []) == t by { ResumeNone(t); }
      assert at[c := OnBarrier(b)] - (set d | d in woken) == at[c := OnBarrier(b)];
    }
  }

  lemma {:induction false} ResumeNone(s: Server)
    ensures ResumeAll(s, []) == s
  {
  }

  // ----- futexes -----

  lemma {:induction false} FutexQueue(s: Server, a: int)
    ensures Queue(s, OnFutex(a)) == QueueOf(s.futexes, a)
  {
  }

  lemma {:induction false} TouchOk(s: Server, a: int, at: map<Core, Place>)
    requires Inv(s, at)
    ensures Inv(Touch(s, a), at) && forall d :: Front(Touch(s, a), d) == Front(s, d)
    ensures QueueOf(Touch(s, a).futexes, a) == QueueOf(s.futexes, a)
  {
    hide ThreadsOk, Queue, Front;
    FutexQueues(s, Touch(s, a), a, QueueOf(s.futexes, a));
    FutexQueue(s, a);
    QuietOk(s, Touch(s, a), at);
  }

  lemma {:induction false} EnqueueOk(s: Server, a: int, c: Core, at: map<Core, Place>)
    requires Inv(s, at) && Front(s, c) == Running
    ensures Inv(Enqueue(s, a, c), at[c := OnFutex(a)])
  {
    hide ThreadsOk, Queue, Front, StallThread;
    StallFrame(s, c);
    FutexQueue(s, a);
    FutexQueues(s, Enqueue(s, a, c), a, QueueOf(s.futexes, a) + [c]);
    BlockOk(s, Enqueue(s, a, c), OnFutex(a), c, at);
  }

  lemma {:induction false} DequeueOk(s: Server, a: int, at: map<Core, Place>)
    requires Inv(s, at) && QueueOf(s.futexes, a) != []
    ensures var c := QueueOf(s.futexes, a)[0];
      && c in at && at[c] == OnFutex(a) && Inv(Dequeue(s, a), at - {c}) && Front(Dequeue(s, a), c) == Running
  {
    hide ThreadsOk, Queue, Front, ResumeThread;
    var q := QueueOf(s.futexes, a);
    var s1 := s.(futexes := s.futexes[a := q[1..]]);
    ResumeFrame(s1, q[0]);
    ResumeSame(s, s1, q[0]);
    FutexQueue(s, a);
    FutexQueues(s, Dequeue(s, a), a, q[1..]);
    UnblockOk(s, Dequeue(s, a), OnFutex(a), at);
    Unfold(s, at);
    FirstStalled(s, OnFutex(a), at);
  }

  lemma {:induction false} WakeUpOk(s: Server, a: int, n: int, at: map<Core, Place>)
    requires Inv(s, at)
    ensures var (t, woken) := WakeUp(s, a, n);
      && Inv(t, at - set c | c in woken)
      && forall c :: c in woken ==> c in at && at[c] == OnFutex(a)
    decreases if n > 0 then n else 0
  {
    hide Inv, Dequeue;
    var q := QueueOf(s.futexes, a);
    if n <= 0 || q == [] {
      assert at - (set c | c in []) == at;
    } else {
      DequeueOk(s, a, at);
      WakeUpOk(Dequeue(s, a), a, n - 1, at - {q[0]});
      var rest := WakeUp(Dequeue(s, a), a, n - 1).1;
      assert (at - {q[0]}) - (set c | c in rest) == at - (set c | c in [q[0]] + rest);
    }
  }

  lemma {:induction false} MoveWaitersOk(s: Server, a: int, b: int, n: int,
      at: map<Core, Place>) returns (at': map<Core, Place>)
    requires Inv(s, at)
    ensures Inv(MoveWaiters(s, a, b, n).0, at')
    ensures at'.Keys == at.Keys
    ensures forall c :: c in at ==> at'[c] == at[c] || (at[c] == OnFutex(a) && at'[c] == OnFutex(b))
    decreases if n > 0 then n else 0
  {
    hide Inv, Dequeue, Enqueue;
    var q := QueueOf(s.futexes, a);
    if n <= 0 || q == [] {
      at' := at;
    } else {
      DequeueOk(s, a, at);
      EnqueueOk(Dequeue(s, a), b, q[0], at - {q[0]});
      at' := MoveWaitersOk(Enqueue(Dequeue(s, a), b, q[0]), a, b, n - 1, (at - {q[0]})[q[0] := OnFutex(b)]);
    }
  }
}
