/** The master's invariant through the life of threads: spawn, start, exit and join. */
module McpThreads {
  import opened Options
  import opened SyncObjects
  import opened Threads
  import opened MasterControl
  import opened McpInvariant

  ghost predicate SameQueues(s: Server, t: Server) {
    && t.mutexes == s.mutexes && t.conds == s.conds && t.barriers == s.barriers && t.futexes == s.futexes
  }

  lemma {:induction false} SameQueuesOk(s: Server, t: Server)
    requires SameQueues(s, t) && t.joiners == s.joiners
    ensures forall q :: Queue(t, q) == Queue(s, q)
  {
  }

  lemma {:induction false} ParkedSame(s: Server, t: Server, at: map<Core, Place>)
    requires Parked(s, at)
    requires forall q :: Queue(t, q) == Queue(s, q)
    requires forall d :: Front(t, d) == Stalled <==> Front(s, d) == Stalled
    ensures Parked(t, at)
  {
    hide Queue, Front, NoRepeats;
  }

  /** A tile is replaced, and the threads told to start change with it. */
  lemma {:induction false} TileReplaced(s: Server, t: Server, c: Core, x: Tile)
    requires TilesOk(s) && c < |s.tiles| && t.tiles == s.tiles[c := x] && TileOk(c == 0, x)
    requires forall th :: th in t.starting <==>
      if th.tile == c then FrontStatus(c == 0, x) == Initializing && Line(c == 0, x)[0] == th.idx else th in s.starting
    ensures TilesOk(t) && forall d :: Front(t, d) == if d == c then FrontStatus(c == 0, x) else Front(s, d)
  {
    hide TileOk, Line, FrontStatus;
    assert forall d :: LineOf(t, d) == if d == c then Line(c == 0, x) else LineOf(s, d);
  }

  /** A replaced tile whose slots are in use as before. */
  ghost predicate SameUse(s: Server, t: Server, c: Core, x: Tile) {
    && c < |s.tiles| && t.tiles == s.tiles[c := x] && |x.slots| == |s.tiles[c].slots|
    && forall j :: 0 <= j < |x.slots| ==>
         x.slots[j].id == s.tiles[c].slots[j].id && (x.slots[j].status == Idle <==> s.tiles[c].slots[j].status == Idle)
  }

  lemma {:induction false} UseKept(s: Server, t: Server, c: Core, x: Tile)
    requires SameUse(s, t, c, x)
    ensures forall th :: HasSlot(t, th) <==> HasSlot(s, th)
    ensures forall th :: HasSlot(s, th) ==>
      SlotOf(t, th).id == SlotOf(s, th).id && (SlotOf(t, th).status == Idle <==> SlotOf(s, th).status == Idle)
  {
  }

  lemma {:induction false} IdsKept(s: Server, t: Server)
    requires IdsOk(s) && t.ids == s.ids && t.counter == s.counter && t.exited == s.exited
    requires forall th :: HasSlot(t, th) <==> HasSlot(s, th)
    requires forall th :: HasSlot(s, th) ==>
      SlotOf(t, th).id == SlotOf(s, th).id && (SlotOf(t, th).status == Idle <==> SlotOf(s, th).status == Idle)
    ensures IdsOk(t)
  {
    hide HasSlot, SlotOf;
  }

  /** What a change of tiles has to keep for the rest of the invariant. */
  ghost predicate Calm(s: Server, t: Server) {
    && TilesOk(t) && IdsOk(t) && SameQueues(s, t) && t.joiners == s.joiners && |t.tiles| == |s.tiles|
    && (forall d :: Front(t, d) == Stalled <==> Front(s, d) == Stalled)
    && (forall th :: HasSlot(t, th) <==> HasSlot(s, th))
    && (forall th :: HasSlot(s, th) && SlotOf(s, th).status != Idle ==> SlotOf(t, th).status != Idle)
    && (forall d :: 0 <= d < |s.tiles| && Front(s, d) == Stalled ==> t.tiles[d].last == s.tiles[d].last)
  }

  lemma {:induction false} CalmOk(s: Server, t: Server, at: map<Core, Place>)
    requires ThreadsOk(s, at) && Calm(s, t)
    ensures ThreadsOk(t, at)
  {
    hide TilesOk, IdsOk, HasSlot, SlotOf;
    SameQueuesOk(s, t);
    forall th | th in s.joiners
      ensures Front(s, s.joiners[th].tile) == Stalled
    {
      assert s.joiners[th].tile in Queue(s, OnJoin(th));
    }
    hide Queue, Front;
    ParkedSame(s, t, at);
    hide Parked;
    JoinersKept(s, t);
  }

  // ----- start -----

  /** The thread told to start is the first of its line and runs then. */
  lemma {:induction false} StartShape(s: Server, c: Core, j: nat)
    requires TilesOk(s) && Thread(c, j) in s.starting
    ensures c < |s.tiles| && j < |s.tiles[c].slots| && Front(s, c) == Initializing
    ensures var t, x := DoStart(s, c, j).0, SetRunning(s.tiles[c], j);
      && TileOk(c == 0, x) && FrontStatus(c == 0, x) == Running && x.last == s.tiles[c].last
      && SameUse(s, t, c, x) && t.aborted == s.aborted
      && forall th :: th in t.starting <==> th.tile != c && th in s.starting
  {
    assert Front(s, c) == Initializing && LineOf(s, c)[0] == j;
    StartOk(c == 0, s.tiles[c]);
    hide TileOk;
  }

  lemma {:induction false} StartOne(s: Server, c: Core, j: nat)
    requires TilesOk(s) && IdsOk(s) && Thread(c, j) in s.starting
    ensures Calm(s, DoStart(s, c, j).0) && DoStart(s, c, j).0.aborted == s.aborted
  {
    hide TilesOk, DoStart, SetRunning, TileOk, Line, FrontStatus;
    StartShape(s, c, j);
    StartFrame(s, c, j);
    var x, t := SetRunning(s.tiles[c], j), DoStart(s, c, j).0;
    TileReplaced(s, t, c, x);
    UseKept(s, t, c, x);
    hide Front, HasSlot, SlotOf;
    IdsKept(s, t);
    hide IdsOk;
  }

  lemma {:induction false} StartFrame(s: Server, c: Core, j: nat)
    ensures var t := DoStart(s, c, j).0; s == t.(tiles := s.tiles, starting := s.starting, aborted := s.aborted)
  {
  }

  lemma {:induction false} StartThreadOk(s: Server, c: Core, j: nat, at: map<Core, Place>)
    requires Inv(s, at) && Thread(c, j) in s.starting
    ensures Inv(DoStart(s, c, j).0, at)
  {
    hide TilesOk, IdsOk, DoStart, Parked, JoinersOk, Calm;
    StartOne(s, c, j);
    StartFrame(s, c, j);
    CalmOk(s, DoStart(s, c, j).0, at);
  }

  // ----- spawn -----

  /** A slot that the search finds is idle and not on tile 0. */
  lemma {:induction false} IdleAfterOk(tiles: seq<Tile>, c: nat, j: nat, i: nat)
    requires tiles != []
    ensures IdleAfter(tiles, c, j, i).Some? ==>
      var t := IdleAfter(tiles, c, j, i).value;
      0 < t < |tiles| && j < |tiles[t].slots| && tiles[t].slots[j].status == Idle
    decreases |tiles| + 1 - i
  {
    if i <= |tiles| {
      IdleAfterOk(tiles, c, j, i + 1);
    }
  }

  lemma {:induction false} IdleAfterMisses(tiles: seq<Tile>, c: nat, j: nat, i: nat, k: nat)
    requires tiles != [] && IdleAfter(tiles, c, j, i).None? && i <= k <= |tiles|
    ensures var t := (c + k) % |tiles|; t == 0 || j >= |tiles[t].slots| || tiles[t].slots[j].status != Idle
    decreases k - i
  {
    if i < k {
      IdleAfterMisses(tiles, c, j, i + 1, k);
    }
  }

  /** The `m`-th tile in turn after `c` is not 0 and has slot `j` idle. */
  ghost predicate IdleInTurn(tiles: seq<Tile>, c: nat, j: nat, m: nat)
    requires tiles != []
  {
    var t := (c + m) % |tiles|;
    t != 0 && j < |tiles[t].slots| && tiles[t].slots[j].status == Idle
  }

  /** The tile found is the first such one in turn. */
  lemma {:induction false} IdleAfterFirst(tiles: seq<Tile>, c: nat, j: nat, i: nat) returns (k: nat)
    requires tiles != [] && IdleAfter(tiles, c, j, i).Some?
    ensures i <= k <= |tiles| && IdleAfter(tiles, c, j, i).value == (c + k) % |tiles|
    ensures IdleInTurn(tiles, c, j, k) && forall m :: i <= m < k ==> !IdleInTurn(tiles, c, j, m)
    decreases |tiles| + 1 - i
  {
    k := i;
    if !IdleInTurn(tiles, c, j, i) {
      k := IdleAfterFirst(tiles, c, j, i + 1);
    }
  }

  lemma {:induction false} TurnReaches(n: nat, c: nat, t: nat) returns (k: nat)
    requires c < n && t < n
    ensures 1 <= k <= n && (c + k) % n == t
  {
    if t > c {
      k := t - c;
    } else {
      k := t + n - c;
      assert c + k == n + t;
      assert (n + t) % n == t;
    }
  }

  /** The search finds a slot exactly when a tile other than 0 has an idle one, and takes the
      highest slot index there is. */
  lemma {:induction false} PickIdleOk(tiles: seq<Tile>, c: nat, k: nat)
    requires c < |tiles|
    ensures match PickIdle(tiles, c, k)
      case Some(th) =>
        && 0 < th.tile < |tiles| && th.idx < k && th.idx < |tiles[th.tile].slots|
        && tiles[th.tile].slots[th.idx].status == Idle && IdleAfter(tiles, c, th.idx, 1) == Some(th.tile)
        && (forall t, j :: 0 < t < |tiles| && th.idx < j < k && j < |tiles[t].slots| ==>
            tiles[t].slots[j].status != Idle)
      case None =>
        forall t, j :: 0 < t < |tiles| && 0 <= j < k && j < |tiles[t].slots| ==> tiles[t].slots[j].status != Idle
  {
    if k > 0 {
      IdleAfterOk(tiles, c, k - 1, 1);
      if IdleAfter(tiles, c, k - 1, 1).None? {
        PickIdleOk(tiles, c, k - 1);
        forall t | 0 < t < |tiles| && k - 1 < |tiles[t].slots|
          ensures tiles[t].slots[k - 1].status != Idle
        {
          var i := TurnReaches(|tiles|, c, t);
          IdleAfterMisses(tiles, c, k - 1, 1, i);
        }
      }
    }
  }

  /** The table of ids stays big enough, doubled when it is full, and keeps what it holds. */
  lemma {:induction false} NewThreadIdOk(s: Server, th: Thread)
    requires s.counter > 0 ==> s.counter < |s.ids|
    ensures var t := NewThreadId(s, th);
      && t.counter == s.counter + 1 && t.counter < |t.ids| && t.ids[t.counter] == th && |s.ids| <= |t.ids|
      && (forall i :: 0 <= i < |t.ids| && i != t.counter ==> t.ids[i] == if i < |s.ids| then s.ids[i] else Thread(0, 0))
      && t == s.(counter := t.counter, ids := t.ids)
      && |t.ids| == if |s.ids| <= t.counter then 2 * t.counter else |s.ids|
  {
  }

  lemma {:induction false} ScheduleFront(x: Tile, j: nat, id: int)
    requires TileOk(false, x) && j < |x.slots| && x.slots[j].status == Idle
    ensures var y := Schedule(x, j, id);
      && TileOk(false, y) && y.run != [] && (x.run == [] <==> FrontStatus(false, x) == Idle)
      && FrontStatus(false, y) == (if x.run == [] then Initializing else FrontStatus(false, x))
      && y.run[0] == if x.run == [] then j else x.run[0]
  {
    ScheduleOk(x, j, id);
    if x.run != [] {
      FrontNotIdle(false, x);
    }
  }

  /** Putting a thread in its tile's line, and starting it when it is alone there. */
  lemma {:induction false} ScheduleTiles(s: Server, c: Core, d: Thread)
    requires TilesOk(s) && d.tile != 0 && HasSlot(s, d) && SlotOf(s, d).status == Idle
    requires Front(s, c) == Stalled
    ensures var t := ScheduleThread(s, c, d);
      && TilesOk(t) && t == s.(tiles := t.tiles, starting := t.starting)
      && (forall e :: Front(t, e) == if e == d.tile && Front(s, e) == Idle then Initializing else Front(s, e))
  {
    var x := s.tiles[d.tile];
    var y := Schedule(x, d.idx, s.counter);
    var t := ScheduleThread(s, c, d);
    ScheduleFront(x, d.idx, s.counter);
    ScheduleStarts(s, c, d);
    hide TileOk, Startable, FirstWith, ScheduleThread, Schedule;
    forall th
      ensures th in t.starting <==>
        if th.tile == d.tile then FrontStatus(false, y) == Initializing && y.run[0] == th.idx else th in s.starting
    {
      assert LineOf(s, d.tile) == x.run && Front(s, d.tile) == FrontStatus(false, x);
    }
    hide TilesOk;
    TileReplaced(s, t, d.tile, y);
  }

  lemma {:induction false} ScheduleSlots(s: Server, c: Core, d: Thread)
    requires TilesOk(s) && d.tile != 0 && HasSlot(s, d) && SlotOf(s, d).status == Idle
    requires Front(s, c) == Stalled
    ensures var t := ScheduleThread(s, c, d);
      && |t.tiles| == |s.tiles| && (forall th :: HasSlot(t, th) <==> HasSlot(s, th))
      && (forall th :: HasSlot(s, th) && th != d ==> SlotOf(t, th) == SlotOf(s, th))
      && SlotOf(t, d).status == Initializing && SlotOf(t, d).id == s.counter
      && (forall e :: 0 <= e < |s.tiles| ==> t.tiles[e].last == s.tiles[e].last)
  {
    ScheduleStarts(s, c, d);
    hide TilesOk, Front, ScheduleThread;
  }

  /** The thread is told to start exactly when its tile's line was empty. */
  lemma {:induction false} ScheduleStarts(s: Server, c: Core, d: Thread)
    requires TilesOk(s) && d.tile != 0 && HasSlot(s, d) && SlotOf(s, d).status == Idle
    requires Front(s, c) == Stalled
    ensures var t := ScheduleThread(s, c, d);
      && t == s.(tiles := s.tiles[d.tile := Schedule(s.tiles[d.tile], d.idx, s.counter)], starting := t.starting)
      && t.starting == s.starting + if s.tiles[d.tile].run == [] then {d} else {}
  {
    var x := s.tiles[d.tile];
    StartableIffEmpty(x);
    hide TileOk, Startable, FirstWith;
    assert c == d.tile ==> x.run != [];
    if x.run == [] {
      assert Schedule(x, d.idx, s.counter).run[0] == d.idx;
    }
  }

  lemma {:induction false} FrontNotIdle(home: bool, t: Tile)
    requires TileOk(home, t) && Line(home, t) != []
    ensures FrontStatus(home, t) != Idle
  {
    assert Line(home, t)[0] in Line(home, t);
  }

  ghost predicate IdleSlot(s: Server, th: Thread) {
    HasSlot(s, th) && SlotOf(s, th).status == Idle
  }

  /** There is room for a thread: on the tile asked for, or, if none is, on one other than tile 0. */
  ghost predicate Roomy(s: Server, dest: Option<nat>)
    requires s.tiles != []
  {
    if dest.Some? then exists i :: IdleSlot(s, Thread(dest.value, i))
    else exists th: Thread :: th.tile != 0 && th.idx < |s.tiles[0].slots| && IdleSlot(s, th)
  }

  /** The thread's slot is the first idle one of the tile asked for; or, if none is, that with the
      highest index that is idle somewhere off tile 0, on the first such tile in turn after `c`. */
  ghost predicate Chosen(s: Server, c: Core, dest: Option<nat>, th: Thread)
    requires s.tiles != []
  {
    && IdleSlot(s, th)
    && if dest.Some? then th.tile == dest.value && forall i :: 0 <= i < th.idx ==> !IdleSlot(s, Thread(th.tile, i))
       else
         && th.tile != 0 && th.idx < |s.tiles[0].slots|
         && (forall x: Thread :: x.tile != 0 && th.idx < x.idx < |s.tiles[0].slots| ==> !IdleSlot(s, x))
         && exists k :: FirstInTurn(s.tiles, c, th.idx, k) && th.tile == (c + k) % |s.tiles|
  }

  /** Of the tiles in turn after `c` the `k`-th is the first other than 0 whose slot `j` is idle. */
  ghost predicate FirstInTurn(tiles: seq<Tile>, c: nat, j: nat, k: int)
    requires tiles != []
  {
    1 <= k <= |tiles| && IdleInTurn(tiles, c, j, k) && forall m :: 1 <= m < k ==> !IdleInTurn(tiles, c, j, m)
  }

  /** A slot is found exactly when there is room, and it is the one described. */
  lemma {:induction false} PickSlotExactly(s: Server, c: Core, dest: Option<nat>)
    requires c < |s.tiles|
    ensures PickSlot(s, c, dest).Some? <==> Roomy(s, dest)
    ensures PickSlot(s, c, dest).Some? ==> Chosen(s, c, dest, PickSlot(s, c, dest).value)
  {
    if dest.None? {
      hide PickIdle, IdleAfter;
      PickIdleOk(s.tiles, c, |s.tiles[0].slots|);
      if PickSlot(s, c, dest).Some? {
        var th := PickSlot(s, c, dest).value;
        var k := IdleAfterFirst(s.tiles, c, th.idx, 1);
        assert FirstInTurn(s.tiles, c, th.idx, k);
        assert IdleSlot(s, th);
      }
    } else if dest.value < |s.tiles| {
      var i := FirstWith(s.tiles[dest.value].slots, Idle, 0);
      if i >= 0 {
        assert IdleSlot(s, Thread(dest.value, i));
      }
    }
  }

  lemma {:induction false} PickSlotOk(s: Server, c: Core, dest: Option<nat>)
    requires c < |s.tiles| && dest != Some(0) && PickSlot(s, c, dest).Some?
    ensures var d := PickSlot(s, c, dest).value;
      d.tile != 0 && HasSlot(s, d) && SlotOf(s, d).status == Idle
  {
    hide PickSlot;
    PickSlotExactly(s, c, dest);
  }

  /** Stalling a thread that is not idle changes nothing about the idle slots. */
  lemma {:induction false} StallKeepsIdle(s: Server, c: Core, j: nat)
    requires HasSlot(s, Thread(c, j)) && SlotOf(s, Thread(c, j)).status != Idle
    ensures var s1 := StallSlot(s, c, j);
      && |s1.tiles| == |s.tiles| && (forall th :: IdleSlot(s1, th) <==> IdleSlot(s, th))
      && forall t :: 0 <= t < |s.tiles| ==> |s1.tiles[t].slots| == |s.tiles[t].slots|
  {
  }

  lemma {:induction false} SameIdle(s: Server, s1: Server, c: Core, dest: Option<nat>)
    requires s.tiles != [] && |s1.tiles| == |s.tiles| && forall th :: IdleSlot(s1, th) <==> IdleSlot(s, th)
    requires forall t :: 0 <= t < |s.tiles| ==> |s1.tiles[t].slots| == |s.tiles[t].slots|
    ensures Roomy(s1, dest) <==> Roomy(s, dest)
    ensures forall th :: Chosen(s1, c, dest, th) <==> Chosen(s, c, dest, th)
  {
    forall j: nat, m: nat
      ensures IdleInTurn(s1.tiles, c, j, m) <==> IdleInTurn(s.tiles, c, j, m)
    {
      var t := (c + m) % |s.tiles|;
      assert IdleSlot(s1, Thread(t, j)) <==> IdleSlot(s, Thread(t, j));
    }
    hide IdleInTurn, IdleSlot;
    assert forall j: nat, k :: FirstInTurn(s1.tiles, c, j, k) <==> FirstInTurn(s.tiles, c, j, k);
  }

  /** The slot that a request of the first thread in line is given. */
  lemma {:induction false} SpawnSlot(s: Server, c: Core, j: nat, dest: Option<nat>)
    requires Front(s, c) == Running && LineOf(s, c)[0] == j
    ensures c < |s.tiles|
    ensures var th := PickSlot(StallSlot(s, c, j), c, dest);
      (th.Some? <==> Roomy(s, dest)) && (th.Some? ==> Chosen(s, c, dest, th.value))
  {
    assert HasSlot(s, Thread(c, j)) && SlotOf(s, Thread(c, j)).status != Idle;
    hide PickSlot, StallSlot, Roomy, Chosen, IdleSlot, Front, LineOf;
    StallKeepsIdle(s, c, j);
    SameIdle(s, StallSlot(s, c, j), c, dest);
    PickSlotExactly(StallSlot(s, c, j), c, dest);
  }

  /** The new id belongs to the new thread; the others keep theirs. */
  lemma {:induction false} SpawnIds(s: Server, c: Core, d: Thread)
    requires TilesOk(s) && IdsOk(s) && d.tile != 0 && HasSlot(s, d) && SlotOf(s, d).status == Idle
    requires Front(s, c) == Stalled
    ensures var s2 := NewThreadId(s, d); TilesOk(s2) && IdsOk(ScheduleThread(s2, c, d))
  {
    var s2 := NewThreadId(s, d);
    NewThreadIdOk(s, d);
    assert HasSlot(s, Thread(0, 0)) by { assert TileOk(true, s.tiles[0]); }
    hide NewThreadId, TileOk, Line, FrontStatus;
    assert forall e :: Front(s2, e) == Front(s, e) && LineOf(s2, e) == LineOf(s, e);
    assert forall th :: HasSlot(s2, th) == HasSlot(s, th);
    assert TilesOk(s2);
    ScheduleTiles(s2, c, d);
    ScheduleSlots(s2, c, d);
    SpawnIdsKept(s, s2, ScheduleThread(s2, c, d), d);
  }

  lemma {:induction false} SpawnIdsKept(s: Server, s2: Server, t: Server, d: Thread)
    requires IdsOk(s) && HasSlot(s, d) && SlotOf(s, d).status == Idle && HasSlot(s, Thread(0, 0))
    requires s2.counter == s.counter + 1 < |s2.ids| && s2.ids[s2.counter] == d
    requires forall i :: 0 <= i < |s2.ids| && i != s2.counter ==>
      s2.ids[i] == if i < |s.ids| then s.ids[i] else Thread(0, 0)
    requires t.ids == s2.ids && t.counter == s2.counter && t.exited == s.exited
    requires forall th :: HasSlot(t, th) <==> HasSlot(s, th)
    requires forall th :: HasSlot(s, th) && th != d ==> SlotOf(t, th) == SlotOf(s, th)
    requires SlotOf(t, d).status == Initializing && SlotOf(t, d).id == s2.counter
    ensures IdsOk(t)
  {
    hide HasSlot, SlotOf;
  }

  lemma {:induction false} SpawnStall(s: Server, s1: Server, c: Core)
    requires TilesOk(s) && IdsOk(s) && Front(s, c) == Running && s1 == StallThread(s, c)
    ensures Spawning(s, s1, c) && TilesOk(s1) && IdsOk(s1) && Front(s1, c) == Stalled
  {
    StallFrame(s, c);
    hide StallThread, TilesOk, IdsOk, HasSlot, SlotOf;
    Stalls(s, s1, c);
    hide Front;
  }

  lemma {:induction false} SpawningOn(s: Server, s1: Server, t: Server, c: Core)
    requires Spawning(s, s1, c) && Spawning(s1, t, c)
    ensures Spawning(s, t, c)
  {
    hide Front, HasSlot, SlotOf;
  }

  lemma {:induction false} SpawnFirst(s: Server, s1: Server, d: Thread, c: Core)
    requires TilesOk(s) && IdsOk(s) && Front(s, c) == Running && s1 == StallThread(s, c)
    requires d.tile != 0 && HasSlot(s1, d) && SlotOf(s1, d).status == Idle
    ensures var t := ScheduleThread(NewThreadId(s1, d), c, d);
      && Spawning(s, t, c) && TilesOk(t) && IdsOk(t) && Front(t, c) == Stalled
  {
    hide StallThread, Front, TilesOk, IdsOk, HasSlot, SlotOf, ScheduleThread, NewThreadId, ResumeThread, Spawning;
    SpawnStall(s, s1, c);
    SpawnIds(s1, c, d);
    SpawnParts(s1, c, d);
    SpawningOn(s, s1, ScheduleThread(NewThreadId(s1, d), c, d), c);
  }

  /** From the spawn request to the point where the requester is about to be resumed. */
  ghost predicate Spawning(s: Server, t: Server, c: Core) {
    && SameQueues(s, t) && t.joiners == s.joiners && |t.tiles| == |s.tiles| && t.aborted == s.aborted
    && (forall d :: d != c ==> (Front(t, d) == Stalled <==> Front(s, d) == Stalled))
    && (forall th :: HasSlot(t, th) <==> HasSlot(s, th))
    && (forall th :: HasSlot(s, th) && SlotOf(s, th).status != Idle ==> SlotOf(t, th).status != Idle)
    && (forall d :: 0 <= d < |s.tiles| && d != c ==> t.tiles[d].last == s.tiles[d].last)
  }

  lemma {:induction false} SpawnLast(s: Server, t: Server, c: Core)
    requires Front(s, c) == Running && Spawning(s, t, c) && TilesOk(t) && IdsOk(t) && Front(t, c) == Stalled
    ensures Calm(s, ResumeThread(t, c)) && ResumeThread(t, c).aborted == s.aborted
  {
    ResumeFrame(t, c);
    hide TilesOk, IdsOk, HasSlot, SlotOf, ResumeThread;
    Resumes(t, ResumeThread(t, c), c);
    hide Front;
  }

  lemma {:induction false} SpawnOk(s: Server, c: Core, j: nat, dest: Option<nat>, at: map<Core, Place>)
    requires Inv(s, at) && Front(s, c) == Running && LineOf(s, c)[0] == j && dest != Some(0)
    requires PickSlot(StallSlot(s, c, j), c, dest).Some?
    ensures Inv(DoSpawn(s, c, j, dest).0, at)
  {
    StallIs(s, c, j);
    var s1 := StallSlot(s, c, j);
    var d := PickSlot(s1, c, dest).value;
    PickSlotOk(s1, c, dest);
    hide StallSlot, StallThread, PickSlot, TilesOk, IdsOk, HasSlot, SlotOf, ScheduleThread, NewThreadId,
      ResumeThread, Parked, JoinersOk;
    hide Front, Calm, Spawning;
    SpawnFirst(s, s1, d, c);
    SpawnLast(s, ScheduleThread(NewThreadId(s1, d), c, d), c);
    CalmOk(s, DoSpawn(s, c, j, dest).0, at);
    CalmObjects(s, DoSpawn(s, c, j, dest).0);
  }

  lemma {:induction false} CalmObjects(s: Server, t: Server)
    requires Calm(s, t) && ObjectsOk(s)
    ensures ObjectsOk(t)
  {
    ObjectsSame(s, t);
  }

  lemma {:induction false} StallIs(s: Server, c: Core, j: nat)
    requires TilesOk(s) && Front(s, c) == Running && LineOf(s, c)[0] == j
    ensures c < |s.tiles| && StallSlot(s, c, j) == StallThread(s, c)
  {
    RunningIsFirst(c == 0, s.tiles[c]);
  }

  lemma {:induction false} SpawnParts(s: Server, c: Core, d: Thread)
    requires TilesOk(s) && TilesOk(NewThreadId(s, d)) && IdsOk(s)
    requires d.tile != 0 && HasSlot(s, d) && SlotOf(s, d).status == Idle && Front(s, c) == Stalled
    ensures var t := ScheduleThread(NewThreadId(s, d), c, d); TilesOk(t) && Spawning(s, t, c) && Front(t, c) == Stalled
  {
    hide NewThreadId, TilesOk, ScheduleThread;
    var s2 := NewThreadId(s, d);
    NewThreadIdOk(s, d);
    SameTilesFronts(s, s2);
    hide Front, HasSlot, SlotOf;
    ScheduleTiles(s2, c, d);
    ScheduleSlots(s2, c, d);
  }

  lemma {:induction false} SameTilesFronts(s: Server, t: Server)
    requires t.tiles == s.tiles
    ensures forall e :: Front(t, e) == Front(s, e)
    ensures forall th :: (HasSlot(t, th) <==> HasSlot(s, th)) && (HasSlot(s, th) ==> SlotOf(t, th) == SlotOf(s, th))
  {
  }

  // ----- exit -----

  /** The thread has left and the next in line has been told to start; who joins it still waits. */
  ghost function Leaving(s: Server, c: Core, j: nat, time: nat): Server
    requires HasSlot(s, Thread(c, j))
  {
    var x := Finish(s.tiles[c], j, time);
    s.(tiles := s.tiles[c := x], exited := s.exited + {SlotOf(s, Thread(c, j)).id},
       starting := s.starting + if x.run == [] then {} else {Thread(c, x.run[0])})
  }

  /** No thread of the tile runs, and the first in its queue, if any, is new. */
  ghost predicate ReadyNext(x: Tile) {
    && FirstWith(x.slots, Running, 0) < 0
    && (x.run != [] ==> x.run[0] < |x.slots| && x.slots[x.run[0]].status == Initializing)
  }

  lemma {:induction false} LeavingTiles(s: Server, c: Core, j: nat, time: nat)
    requires TilesOk(s) && Front(s, c) == Running && LineOf(s, c)[0] == j
    ensures HasSlot(s, Thread(c, j))
    ensures var t := Leaving(s, c, j, time);
      && TilesOk(t) && Front(t, c) != Stalled && (forall e :: e != c ==> Front(t, e) == Front(s, e))
      && ReadyNext(t.tiles[c])
  {
    FinishOk(c == 0, s.tiles[c], time);
    var x := Finish(s.tiles[c], j, time);
    var t := Leaving(s, c, j, time);
    if x.run != [] {
      FrontNotIdle(c == 0, x);
    }
    hide TileOk, FirstWith, Finish;
    TileReplaced(s, t, c, x);
  }

  lemma {:induction false} LeavingIds(s: Server, c: Core, j: nat, time: nat)
    requires IdsOk(s) && HasSlot(s, Thread(c, j))
    ensures var t := Leaving(s, c, j, time);
      && IdsOk(t) && |t.tiles| == |s.tiles| && (forall th :: HasSlot(t, th) <==> HasSlot(s, th))
      && (forall th :: HasSlot(s, th) && th != Thread(c, j) ==> SlotOf(t, th) == SlotOf(s, th))
      && (forall e :: 0 <= e < |s.tiles| ==> t.tiles[e].last == s.tiles[e].last)
  {
    var t := Leaving(s, c, j, time);
    assert forall th :: HasSlot(t, th) <==> HasSlot(s, th);
    assert forall th :: HasSlot(s, th) && th != Thread(c, j) ==> SlotOf(t, th) == SlotOf(s, th);
    assert SlotOf(t, Thread(c, j)).id == SlotOf(s, Thread(c, j)).id;
  }

  lemma {:induction false} NextIs(s: Server, c: Core)
    requires c < |s.tiles| && ReadyNext(s.tiles[c])
    ensures NextInLine(s, c).0 ==
      s.(starting := s.starting + if s.tiles[c].run == [] then {} else {Thread(c, s.tiles[c].run[0])})
  {
    hide FirstWith;
  }

  lemma {:induction false} WakeAside(s: Server, th: Thread, time: nat, starting: set<Thread>, c: Core)
    requires c < |s.tiles| && (th in s.joiners ==> s.joiners[th].tile != c)
    ensures var t := WakeUpWaiter(s, th, time).0;
      && WakeUpWaiter(s.(starting := starting), th, time).0 == t.(starting := starting)
      && |t.tiles| == |s.tiles| && t.tiles[c] == s.tiles[c] && t.starting == s.starting
  {
  }

  /** Waking who joins and starting the next in line do not interfere. */
  lemma {:induction false} ExitIs(s: Server, c: Core, j: nat, time: nat)
    requires TilesOk(s) && Front(s, c) == Running && LineOf(s, c)[0] == j
    requires Thread(c, j) in s.joiners ==> s.joiners[Thread(c, j)].tile != c
    ensures HasSlot(s, Thread(c, j))
    ensures DoExit(s, c, j, time).0 == WakeUpWaiter(Leaving(s, c, j, time), Thread(c, j), time).0
  {
    LeavingTiles(s, c, j, time);
    var x := Finish(s.tiles[c], j, time);
    var s1 := s.(tiles := s.tiles[c := x], exited := s.exited + {SlotOf(s, Thread(c, j)).id});
    hide TilesOk, ReadyNext, Finish, WakeUpWaiter, NextInLine;
    WakeAside(s1, Thread(c, j), time, Leaving(s, c, j, time).starting, c);
    NextIs(WakeUpWaiter(s1, Thread(c, j), time).0, c);
  }

  lemma {:induction false} LeavingOk(s: Server, c: Core, j: nat, time: nat, at: map<Core, Place>)
    requires ThreadsOk(s, at) && Front(s, c) == Running && LineOf(s, c)[0] == j
    ensures HasSlot(s, Thread(c, j))
    ensures var t := Leaving(s, c, j, time); TilesOk(t) && IdsOk(t) && Parked(t, at)
  {
    LeavingTiles(s, c, j, time);
    LeavingIds(s, c, j, time);
    SameQueuesOk(s, Leaving(s, c, j, time));
    hide TilesOk, IdsOk, Queue, ReadyNext;
    ParkedSame(s, Leaving(s, c, j, time), at);
  }

  lemma {:induction false} ExitOk(s: Server, c: Core, j: nat, time: nat, at: map<Core, Place>)
    requires Inv(s, at) && Front(s, c) == Running && LineOf(s, c)[0] == j
    ensures var th := Thread(c, j);
      && (th in s.joiners ==> s.joiners[th].tile in at && at[s.joiners[th].tile] == OnJoin(th))
      && Inv(DoExit(s, c, j, time).0, if th in s.joiners then at - {s.joiners[th].tile} else at)
  {
    hide TilesOk, IdsOk, HasSlot, Leaving, WakeUpWaiter, DoExit;
    var th := Thread(c, j);
    JoinersAway(s, at, c);
    ExitIs(s, c, j, time);
    LeavingOk(s, c, j, time, at);
    var t := Leaving(s, c, j, time);
    LeavingFrame(s, c, j, time);
    LeavingJoiners(s, c, j, time);
    hide Parked, Queue, Front, ObjectsOk;
    ObjectsSame(s, t);
    if th in s.joiners {
      hide OtherJoinersOk;
      WakeWaiterOk(t, th, time, at);
    }
  }

  lemma {:induction false} LeavingFrame(s: Server, c: Core, j: nat, time: nat)
    requires HasSlot(s, Thread(c, j))
    ensures var t := Leaving(s, c, j, time);
      && SameQueues(s, t) && t.joiners == s.joiners && t.aborted == s.aborted
      && (Thread(c, j) !in s.joiners ==> WakeUpWaiter(t, Thread(c, j), time).0 == t)
  {
  }

  lemma {:induction false} LeavingJoiners(s: Server, c: Core, j: nat, time: nat)
    requires JoinersOk(s) && IdsOk(s) && HasSlot(s, Thread(c, j))
    ensures var t := Leaving(s, c, j, time);
      && OtherJoinersOk(t, Thread(c, j)) && |t.tiles| == |s.tiles|
      && (Thread(c, j) in s.joiners ==>
            var w := s.joiners[Thread(c, j)]; w.tile < |t.tiles| && t.tiles[w.tile].last == w.idx)
  {
    LeavingFrame(s, c, j, time);
    LeavingIds(s, c, j, time);
    hide Leaving, IdsOk;
  }

  /** The joins other than `th`'s are in order. */
  ghost predicate OtherJoinersOk(s: Server, th: Thread) {
    forall k :: k in s.joiners && k != th ==>
      && HasSlot(s, k) && SlotOf(s, k).status != Idle
      && s.joiners[k].tile < |s.tiles| && s.tiles[s.joiners[k].tile].last == s.joiners[k].idx
  }

  lemma {:induction false} OthersKept(s: Server, t: Server, th: Thread)
    requires OtherJoinersOk(s, th) && th !in t.joiners && |t.tiles| == |s.tiles|
    requires t.joiners == s.joiners - {th}
    requires forall k :: HasSlot(t, k) <==> HasSlot(s, k)
    requires forall k :: HasSlot(s, k) ==> (SlotOf(t, k).status == Idle <==> SlotOf(s, k).status == Idle)
    requires forall d :: 0 <= d < |s.tiles| ==> t.tiles[d].last == s.tiles[d].last
    ensures JoinersOk(t)
  {
    hide HasSlot, SlotOf;
  }

  lemma {:induction false} ObjectsSame(s: Server, t: Server)
    requires SameQueues(s, t) && ObjectsOk(s)
    ensures ObjectsOk(t)
  {
  }

  /** Whoever joins `th` is woken and leaves its place. */
  lemma {:induction false} WakeWaiterOk(t: Server, th: Thread, time: nat, at: map<Core, Place>)
    requires TilesOk(t) && IdsOk(t) && Parked(t, at) && OtherJoinersOk(t, th) && ObjectsOk(t)
    requires th in t.joiners && t.joiners[th].tile < |t.tiles| && t.tiles[t.joiners[th].tile].last == t.joiners[th].idx
    ensures t.joiners[th].tile in at && at[t.joiners[th].tile] == OnJoin(th)
    ensures var u := WakeUpWaiter(t, th, time).0;
      ThreadsOk(u, at - {t.joiners[th].tile}) && ObjectsOk(u) && u.aborted == t.aborted
  {
    hide TilesOk, IdsOk, Parked, HasSlot, SlotOf, Front, WakeUpWaiter, ResumeThread;
    hide JoinersOk, OtherJoinersOk, ObjectsOk;
    var w, u := t.joiners[th], WakeUpWaiter(t, th, time).0;
    JoinerAlone(t, th);
    hide Queue;
    FirstStalled(t, OnJoin(th), at);
    WakeUpIs(t, th, time);
    Resumes(t, u, w.tile);
    OthersKept(t, u, th);
    ObjectsSame(t, u);
    JoinQueues(t, u, th);
    ParkedOut(t, u, OnJoin(th), at);
  }

  lemma {:induction false} JoinerAlone(t: Server, th: Thread)
    requires th in t.joiners
    ensures Queue(t, OnJoin(th)) == [t.joiners[th].tile]
  {
  }

  lemma {:induction false} WakeUpIs(t: Server, th: Thread, time: nat)
    requires th in t.joiners && t.joiners[th].tile < |t.tiles| && t.tiles[t.joiners[th].tile].last == t.joiners[th].idx
    ensures WakeUpWaiter(t, th, time).0 == ResumeThread(t, t.joiners[th].tile).(joiners := t.joiners - {th})
    ensures var u := WakeUpWaiter(t, th, time).0;
      SameQueues(t, u) && u.starting == t.starting && u.ids == t.ids && u.counter == t.counter && u.exited == t.exited
  {
  }

  lemma {:induction false} JoinQueues(t: Server, u: Server, th: Thread)
    requires SameQueues(t, u) && th in t.joiners && u.joiners == t.joiners - {th}
    ensures forall q :: Queue(u, q) == if q == OnJoin(th) then Queue(t, q)[1..] else Queue(t, q)
  {
  }

  // ----- join -----

  lemma {:induction false} JoinOk(s: Server, c: Core, j: nat, id: nat, at: map<Core, Place>)
    requires Inv(s, at) && Front(s, c) == Running && LineOf(s, c)[0] == j
    requires id < |s.ids| && s.ids[id] !in s.joiners
    ensures HasSlot(s, s.ids[id])
    ensures Inv(DoJoin(s, c, j, id).0, if SlotOf(s, s.ids[id]).status == Idle then at else at[c := OnJoin(s.ids[id])])
  {
    var th := s.ids[id];
    var s1 := StallThread(s, c);
    StallIs(s, c, j);
    StallFrame(s, c);
    assert s1.tiles[c].last == j by { StallLast(s, c, j); }
    if SlotOf(s, th).status == Idle {
      JoinAtOnce(s, c, j, id);
      hide StallThread, DoJoin, ResumeThread, Front, TilesOk, IdsOk, Calm, Spawning, Parked, JoinersOk;
      SpawnStall(s, s1, c);
      SpawnLast(s, s1, c);
      CalmOk(s, ResumeThread(s1, c), at);
      CalmObjects(s, ResumeThread(s1, c));
    } else {
      JoinWaits(s, c, j, th, at);
    }
  }

  lemma {:induction false} StallLast(s: Server, c: Core, j: nat)
    requires c < |s.tiles| && StallSlot(s, c, j) == StallThread(s, c) && j < |s.tiles[c].slots|
    ensures |StallThread(s, c).tiles| == |s.tiles| && StallThread(s, c).tiles[c].last == j
  {
  }

  /** Joining a thread that has left: the caller is stalled and resumed in one step. */
  lemma {:induction false} JoinAtOnce(s: Server, c: Core, j: nat, id: nat)
    requires c < |s.tiles| && StallThread(s, c).tiles[c].last == j && |StallThread(s, c).tiles| == |s.tiles|
    requires id < |s.ids| && s.ids[id] !in s.joiners && HasSlot(s, s.ids[id]) && SlotOf(s, s.ids[id]).status == Idle
    ensures DoJoin(s, c, j, id).0 == ResumeThread(StallThread(s, c), c)
  {
    StallFrame(s, c);
    hide StallThread;
    var s1 := StallThread(s, c).(joiners := s.joiners[s.ids[id] := Thread(c, j)]);
    assert s1.joiners - {s.ids[id]} == s.joiners;
  }

  lemma {:induction false} JoinWaits(s: Server, c: Core, j: nat, th: Thread, at: map<Core, Place>)
    requires Inv(s, at) && Front(s, c) == Running && c < |s.tiles| == |StallThread(s, c).tiles|
    requires StallThread(s, c).tiles[c].last == j
    requires th !in s.joiners && HasSlot(s, th) && SlotOf(s, th).status != Idle
    ensures Inv(StallThread(s, c).(joiners := s.joiners[th := Thread(c, j)]), at[c := OnJoin(th)])
  {
    hide TilesOk, IdsOk, HasSlot, SlotOf, StallThread;
    var t := StallThread(s, c).(joiners := s.joiners[th := Thread(c, j)]);
    StallFrame(s, c);
    JoinAdds(s, t, th, Thread(c, j));
    JoinersAway(s, at, c);
    hide Queue, Front;
    Stalls(s, t, c);
    assert JoinersOk(t);
    hide JoinersOk;
    ParkedIn(s, t, OnJoin(th), c, at);
  }

  lemma {:induction false} JoinAdds(s: Server, t: Server, th: Thread, w: Thread)
    requires SameQueues(s, t) && th !in s.joiners && t.joiners == s.joiners[th := w]
    ensures forall q :: Queue(t, q) == if q == OnJoin(th) then Queue(s, q) + [w.tile] else Queue(s, q)
  {
  }
}
