/** The thread slots of one tile and the queue of threads that share its core
    (common/system/thread_manager.cc, common/system/thread_scheduler.cc), without yield and
    migration. */
module Threads {
  datatype Status = Idle | Initializing | Running | Stalled

  datatype Slot = Slot(status: Status, id: int, completed: nat)

  /** `run` holds the slot indices of the tile's waiter queue; `last` is the thread stalled last, or -1. */
  datatype Tile = Tile(slots: seq<Slot>, run: seq<nat>, last: int)

  /** The first slot with a status, from `k` on, or -1. */
  function FirstWith(slots: seq<Slot>, st: Status, k: nat): (r: int)
    requires k <= |slots|
    ensures r == -1 || k <= r < |slots|
    ensures r >= 0 ==> slots[r].status == st
    ensures forall j :: k <= j < |slots| && (r < 0 || j < r) ==> slots[j].status != st
    decreases |slots| - k
  {
    if k == |slots| then -1 else if slots[k].status == st then k else FirstWith(slots, st, k + 1)
  }

  /** The index of the running thread, and whether the scan meets a second one. */
  method IsCoreRunning(slots: seq<Slot>) returns (index: int, two: bool)
    ensures index == FirstWith(slots, Running, 0)
    ensures two <==> exists i, j :: 0 <= i < j < |slots| && slots[i].status == slots[j].status == Running
  {
    index, two := -1, false;
    for j := 0 to |slots|
      invariant -1 <= index < j
      invariant index >= 0 ==> slots[index].status == Running
      invariant forall i :: 0 <= i < j && (index < 0 || i < index) ==> slots[i].status != Running
      invariant two <==> exists i, k :: 0 <= i < k < j && slots[i].status == slots[k].status == Running
    {
      if slots[j].status == Running {
        if index == -1 {
          index := j;
        } else {
          two := true;
          assert slots[index].status == slots[j].status == Running;
        }
      }
    }
    FirstIs(slots, Running, index);
  }

  lemma {:induction false} FirstIs(slots: seq<Slot>, st: Status, r: int)
    requires r == -1 || (0 <= r < |slots| && slots[r].status == st)
    requires forall j :: 0 <= j < |slots| && (r < 0 || j < r) ==> slots[j].status != st
    ensures FirstWith(slots, st, 0) == r
  {
  }

  method GetIdleThread(slots: seq<Slot>) returns (index: int)
    ensures index == FirstWith(slots, Idle, 0)
  {
    index := -1;
    var j := 0;
    while j < |slots| && index == -1
      invariant 0 <= j <= |slots|
      invariant index == -1 || (0 <= index < |slots| && slots[index].status == Idle && j == index + 1)
      invariant forall i :: 0 <= i < j && (index < 0 || i < index) ==> slots[i].status != Idle
    {
      if slots[j].status == Idle {
        index := j;
      }
      j := j + 1;
    }
    FirstIs(slots, Idle, index);
  }

  // ----- the tile's threads in line -----

  /** The threads that share the core, the one that has it first.  The main thread, on tile 0
      (`home`), is not in the queue. */
  ghost function Line(home: bool, t: Tile): seq<nat> {
    if home then (if t.slots != [] && t.slots[0].status != Idle then [0] else []) else t.run
  }

  ghost function FrontStatus(home: bool, t: Tile): Status {
    if Line(home, t) == [] || Line(home, t)[0] >= |t.slots| then Idle else t.slots[Line(home, t)[0]].status
  }

  ghost predicate NoRepeats(s: seq<nat>) {
    forall i, j :: 0 <= i < j < |s| ==> s[i] != s[j]
  }

  /** The line lists exactly the slots in use, once each; only the first may run or be stalled;
      if it is stalled it is the thread stalled last. */
  ghost predicate TileOk(home: bool, t: Tile) {
    && t.slots != [] && (home ==> t.run == [])
    && NoRepeats(Line(home, t))
    && (forall i :: 0 <= i < |Line(home, t)| ==> Line(home, t)[i] < |t.slots|)
    && (forall j :: 0 <= j < |t.slots| ==> (t.slots[j].status == Idle <==> j !in Line(home, t)))
    && (forall i :: 0 < i < |Line(home, t)| ==> t.slots[Line(home, t)[i]].status == Initializing)
    && (FrontStatus(home, t) == Stalled ==> t.last == Line(home, t)[0])
  }

  /** At most one thread of a core runs, and it is the first in line. */
  lemma {:induction false} RunningIsFirst(home: bool, t: Tile)
    requires TileOk(home, t)
    ensures FirstWith(t.slots, Running, 0) == if FrontStatus(home, t) == Running then Line(home, t)[0] else -1
    ensures forall i, j :: 0 <= i < j < |t.slots| ==> !(t.slots[i].status == t.slots[j].status == Running)
  {
    var q := Line(home, t);
    forall j | 0 <= j < |t.slots| && t.slots[j].status == Running
      ensures q != [] && j == q[0]
    {
      assert j in q;
    }
    FirstIs(t.slots, Running, if FrontStatus(home, t) == Running then q[0] else -1);
  }

  function SetStalled(t: Tile, j: nat): Tile
    requires j < |t.slots|
  {
    t.(slots := t.slots[j := t.slots[j].(status := Stalled)], last := j)
  }

  function SetRunning(t: Tile, j: nat): Tile
    requires j < |t.slots|
  {
    t.(slots := t.slots[j := t.slots[j].(status := Running)])
  }

  /** Stalling the running thread. */
  lemma {:induction false} StallOk(home: bool, t: Tile)
    requires TileOk(home, t) && FrontStatus(home, t) == Running
    ensures FirstWith(t.slots, Running, 0) == Line(home, t)[0] < |t.slots|
    ensures var u := SetStalled(t, Line(home, t)[0]);
      TileOk(home, u) && FrontStatus(home, u) == Stalled && Line(home, u) == Line(home, t)
  {
    RunningIsFirst(home, t);
  }

  /** Resuming the thread stalled last. */
  lemma {:induction false} ResumeOk(home: bool, t: Tile)
    requires TileOk(home, t) && FrontStatus(home, t) == Stalled
    ensures 0 <= t.last < |t.slots| && t.last == Line(home, t)[0]
    ensures var u := SetRunning(t, t.last);
      TileOk(home, u) && FrontStatus(home, u) == Running && Line(home, u) == Line(home, t)
  {
    assert Line(home, SetRunning(t, t.last)) == Line(home, t);
  }

  // ----- spawning, starting and leaving -----

  /** A new thread takes slot `j` and the end of the queue. */
  function Schedule(t: Tile, j: nat, id: int): Tile
    requires j < |t.slots|
  {
    t.(slots := t.slots[j := t.slots[j].(status := Initializing, id := id)], run := t.run + [j])
  }

  /** No thread of the core runs, is about to, or is stalled. */
  predicate Startable(slots: seq<Slot>) {
    FirstWith(slots, Running, 0) < 0 && FirstWith(slots, Initializing, 0) < 0 && FirstWith(slots, Stalled, 0) < 0
  }

  lemma {:induction false} ScheduleOk(t: Tile, j: nat, id: int)
    requires TileOk(false, t) && j < |t.slots| && t.slots[j].status == Idle
    ensures TileOk(false, Schedule(t, j, id)) && Schedule(t, j, id).run == t.run + [j]
    ensures FrontStatus(false, Schedule(t, j, id)) == if t.run == [] then Initializing else FrontStatus(false, t)
  {
    var u := Schedule(t, j, id);
    AppendNew(t.run, j);
    forall i | 0 <= i < |u.slots|
      ensures u.slots[i].status == Idle <==> i !in u.run
    {
      assert i != j ==> u.slots[i] == t.slots[i];
    }
    forall i | 0 <= i < |u.run|
      ensures u.run[i] < |u.slots| && (i > 0 ==> u.slots[u.run[i]].status == Initializing)
    {
      assert i < |t.run| ==> t.run[i] != j;
    }
  }

  lemma {:induction false} AppendNew(q: seq<nat>, j: nat)
    requires NoRepeats(q) && j !in q
    ensures NoRepeats(q + [j]) && forall x :: x in q + [j] <==> x in q || x == j
    ensures forall i :: 0 <= i < |q| ==> (q + [j])[i] == q[i] && q[i] != j
  {
  }

  lemma {:induction false} StartableIffEmpty(t: Tile)
    requires TileOk(false, t)
    ensures Startable(t.slots) <==> t.run == []
  {
    if t.run != [] {
      assert t.run[0] in t.run;
    }
  }

  /** The spawned thread reports that it runs. */
  lemma {:induction false} StartOk(home: bool, t: Tile)
    requires TileOk(home, t) && FrontStatus(home, t) == Initializing
    ensures var u := SetRunning(t, Line(home, t)[0]);
      TileOk(home, u) && FrontStatus(home, u) == Running && Line(home, u) == Line(home, t)
  {
    var u := SetRunning(t, Line(home, t)[0]);
    assert Line(home, u) == Line(home, t);
  }

  /** Thread `j` leaves: its slot is free, and the queue loses its first. */
  function Finish(t: Tile, j: nat, time: nat): Tile
    requires j < |t.slots|
  {
    t.(slots := t.slots[j := t.slots[j].(status := Idle, completed := time)],
      run := if t.run == [] then [] else t.run[1..])
  }

  lemma {:induction false} FinishLine(home: bool, t: Tile, time: nat)
    requires TileOk(home, t) && FrontStatus(home, t) == Running
    ensures var j := Line(home, t)[0];
      var u := Finish(t, j, time);
      && Line(home, u) == Line(home, t)[1..] && (home ==> u.run == [])
      && u.slots == t.slots[j := t.slots[j].(status := Idle, completed := time)]
  {
  }

  lemma {:induction false} FinishTile(home: bool, t: Tile, time: nat)
    requires TileOk(home, t) && FrontStatus(home, t) == Running
    ensures var u := Finish(t, Line(home, t)[0], time);
      && TileOk(home, u) && Line(home, u) == Line(home, t)[1..]
      && (FrontStatus(home, u) == Idle || FrontStatus(home, u) == Initializing)
  {
    FinishLine(home, t, time);
    RestOfLine(home, t);
    var q := Line(home, t);
    var u := Finish(t, q[0], time);
    hide Finish, NoRepeats, Line;
    FreedSlot(t.slots, u.slots, q, q[1..]);
    hide TileOk, FrontStatus;
    NewLine(home, u, q[1..]);
  }

  /** A line of new threads that lists exactly the slots in use. */
  lemma {:induction false} NewLine(home: bool, u: Tile, rest: seq<nat>)
    requires Line(home, u) == rest && u.slots != [] && (home ==> u.run == []) && NoRepeats(rest)
    requires forall k :: 0 <= k < |u.slots| ==> (u.slots[k].status == Idle <==> k !in rest)
    requires forall i :: 0 <= i < |rest| ==> rest[i] < |u.slots| && u.slots[rest[i]].status == Initializing
    ensures TileOk(home, u) && (FrontStatus(home, u) == Idle || FrontStatus(home, u) == Initializing)
  {
    hide Line, NoRepeats;
  }

  lemma {:induction false} FreedSlot(slots: seq<Slot>, slots': seq<Slot>, q: seq<nat>, rest: seq<nat>)
    requires q != [] && q[0] < |slots| == |slots'| && slots'[q[0]].status == Idle
    requires forall k :: 0 <= k < |slots| && k != q[0] ==> slots'[k] == slots[k]
    requires forall k :: 0 <= k < |slots| ==> (slots[k].status == Idle <==> k !in q)
    requires forall x :: x in rest <==> x in q && x != q[0]
    requires forall i :: 0 <= i < |rest| ==>
      rest[i] < |slots| && slots[rest[i]].status == Initializing && rest[i] != q[0]
    ensures forall k :: 0 <= k < |slots'| ==> (slots'[k].status == Idle <==> k !in rest)
    ensures forall i :: 0 <= i < |rest| ==> rest[i] < |slots'| && slots'[rest[i]].status == Initializing
  {
  }

  lemma {:induction false} FinishOk(home: bool, t: Tile, time: nat)
    requires TileOk(home, t) && FrontStatus(home, t) == Running
    ensures Line(home, t) != [] && Line(home, t)[0] < |t.slots|
    ensures var u := Finish(t, Line(home, t)[0], time);
      && TileOk(home, u) && Line(home, u) == Line(home, t)[1..]
      && (FrontStatus(home, u) == Idle || FrontStatus(home, u) == Initializing)
      && FirstWith(u.slots, Running, 0) == -1
  {
    hide TileOk, FirstWith, Finish;
    FinishTile(home, t, time);
    RunningIsFirst(home, Finish(t, Line(home, t)[0], time));
  }

  /** Those behind the first. */
  lemma {:induction false} RestOfLine(home: bool, t: Tile)
    requires TileOk(home, t) && Line(home, t) != []
    ensures var q := Line(home, t);
      var rest := q[1..];
      && NoRepeats(rest) && (forall x :: x in rest <==> x in q && x != q[0])
      && forall i :: 0 <= i < |rest| ==>
          rest[i] < |t.slots| && t.slots[rest[i]].status == Initializing && rest[i] != q[0]
  {
    var q := Line(home, t);
    hide Line;
    assert forall i :: 0 <= i < |q[1..]| ==> q[1..][i] == q[i + 1];
  }
}
