/** The synchronization objects of the master control program as values: mutex, condition
    variable and barrier (common/system/sync_server.cc) and the futex queues
    (common/system/syscall_server.cc).  Cores are named by their tile. */
module SyncObjects {
  import opened Options

  type Core = nat

  // ----- mutexes -----

  datatype Mutex = Mutex(owner: Option<Core>, waiting: seq<Core>)

  /** Nobody waits for a free mutex. */
  predicate MutexOk(x: Mutex) {
    x.waiting != [] ==> x.owner.Some?
  }

  function Lock(x: Mutex, c: Core): Mutex {
    if x.owner.None? then x.(owner := Some(c)) else x.(waiting := x.waiting + [c])
  }

  function Unlock(x: Mutex): Mutex {
    if x.waiting == [] then x.(owner := None) else Mutex(Some(x.waiting[0]), x.waiting[1..])
  }

  /** The owner and those behind it. */
  function Claimants(x: Mutex): seq<Core> {
    (if x.owner.Some? then [x.owner.value] else []) + x.waiting
  }

  /** Locking goes to the end of the line, unlocking takes the first away. */
  lemma {:induction false} ClaimsMove(x: Mutex, c: Core)
    requires MutexOk(x)
    ensures MutexOk(Lock(x, c)) && Claimants(Lock(x, c)) == Claimants(x) + [c]
    ensures x.owner.Some? ==> MutexOk(Unlock(x)) && Claimants(Unlock(x)) == Claimants(x)[1..]
  {
  }

  datatype MutexOp = Locks(c: Core) | Unlocks

  ghost function AfterOp(x: Mutex, op: MutexOp): Mutex {
    if op.Locks? then Lock(x, op.c) else Unlock(x)
  }

  ghost function RequestOf(op: MutexOp): seq<Core> {
    if op.Locks? then [op.c] else []
  }

  /** The core that the operation makes owner, if any. */
  ghost function GrantOf(x: Mutex, op: MutexOp): seq<Core> {
    var y := AfterOp(x, op);
    if y.owner.Some? && (op.Unlocks? || x.owner.None?) then [y.owner.value] else []
  }

  ghost function AfterMutex(x: Mutex, ops: seq<MutexOp>): Mutex
    decreases |ops|
  {
    if ops == [] then x else AfterMutex(AfterOp(x, ops[0]), ops[1..])
  }

  ghost function Requests(ops: seq<MutexOp>): seq<Core> {
    if ops == [] then [] else RequestOf(ops[0]) + Requests(ops[1..])
  }

  ghost function Grants(x: Mutex, ops: seq<MutexOp>): seq<Core>
    decreases |ops|
  {
    if ops == [] then [] else GrantOf(x, ops[0]) + Grants(AfterOp(x, ops[0]), ops[1..])
  }

  lemma {:induction false} MutexStep(x: Mutex, op: MutexOp)
    requires MutexOk(x)
    ensures MutexOk(AfterOp(x, op))
    ensures x.waiting + RequestOf(op) == GrantOf(x, op) + AfterOp(x, op).waiting
  {
  }

  lemma {:induction false} Regroup(x: seq<Core>, asked: seq<Core>, r: seq<Core>, head: seq<Core>, y: seq<Core>,
      g: seq<Core>, w: seq<Core>)
    requires x + asked == head + y && y + r == g + w
    ensures x + (asked + r) == (head + g) + w
  {
    assert x + (asked + r) == (x + asked) + r;
    assert (head + y) + r == head + (y + r);
    assert head + (g + w) == (head + g) + w;
  }

  /** Ownership passes in the order of the requests, and no waiter is lost or repeated. */
  lemma {:induction false} MutexFifo(x: Mutex, ops: seq<MutexOp>)
    requires MutexOk(x)
    ensures MutexOk(AfterMutex(x, ops))
    ensures x.waiting + Requests(ops) == Grants(x, ops) + AfterMutex(x, ops).waiting
    decreases |ops|
  {
    if ops != [] {
      hide AfterOp, RequestOf, GrantOf, MutexOk;
      var y := AfterOp(x, ops[0]);
      MutexStep(x, ops[0]);
      MutexFifo(y, ops[1..]);
      Regroup(x.waiting, RequestOf(ops[0]), Requests(ops[1..]), GrantOf(x, ops[0]), y.waiting,
        Grants(y, ops[1..]), AfterMutex(y, ops[1..]).waiting);
    }
  }

  // ----- condition variables -----

  datatype CondWaiter = CondWaiter(core: Core, mutex: nat, time: nat)

  /** Erasing the first waiter: the others move down, except that the reference to a waiter's
      mutex is not assignable, so every place keeps the mutex it had. */
  function Erased(ws: seq<CondWaiter>): (r: seq<CondWaiter>)
    requires ws != []
    ensures |r| == |ws| - 1
  {
    seq(|ws| - 1, i requires 0 <= i < |ws| - 1 => ws[i + 1].(mutex := ws[i].mutex))
  }

  function Cores(ws: seq<CondWaiter>): (r: seq<Core>)
    ensures |r| == |ws|
  {
    seq(|ws|, i requires 0 <= i < |ws| => ws[i].core)
  }

  lemma {:induction false} ErasedCores(ws: seq<CondWaiter>)
    requires ws != []
    ensures Cores(Erased(ws)) == Cores(ws)[1..]
  {
  }

  /** The waiters that `k` signals in a row pick, each as it is recorded then. */
  ghost function Signalled(ws: seq<CondWaiter>, k: nat): seq<CondWaiter>
    requires k <= |ws|
    decreases k
  {
    if k == 0 then [] else [ws[0]] + Signalled(Erased(ws), k - 1)
  }

  ghost predicate OneMutex(ws: seq<CondWaiter>) {
    forall i :: 0 <= i < |ws| ==> ws[i].mutex == ws[0].mutex
  }

  /** Signals wake in order of arrival, but all woken waiters lock the first waiter's mutex. */
  lemma {:induction false} SignalledInOrder(ws: seq<CondWaiter>, k: nat)
    requires k <= |ws|
    ensures |Signalled(ws, k)| == k
    ensures forall i :: 0 <= i < k ==>
      Signalled(ws, k)[i] == CondWaiter(ws[i].core, ws[0].mutex, ws[i].time)
    decreases k
  {
    if k > 0 {
      ErasedAt(ws);
      hide Erased;
      SignalledInOrder(Erased(ws), k - 1);
      assert forall i :: 0 < i < k ==> Signalled(ws, k)[i] == Signalled(Erased(ws), k - 1)[i - 1];
    }
  }

  lemma {:induction false} ErasedAt(ws: seq<CondWaiter>)
    requires ws != []
    ensures |Erased(ws)| == |ws| - 1
    ensures forall i :: 0 <= i < |ws| - 1 ==> Erased(ws)[i] == CondWaiter(ws[i + 1].core, ws[i].mutex, ws[i + 1].time)
  {
    forall i | 0 <= i < |ws| - 1
      ensures Erased(ws)[i] == CondWaiter(ws[i + 1].core, ws[i].mutex, ws[i + 1].time)
    {
      var w := ws[i + 1];
      assert Erased(ws)[i] == w.(mutex := ws[i].mutex);
    }
  }

  /** Every signalled waiter gets back the mutex it gave up exactly when all waiters gave up the
      same one. */
  lemma {:induction false} RelocksItsOwn(ws: seq<CondWaiter>)
    ensures (forall i :: 0 <= i < |ws| ==> |Signalled(ws, |ws|)| == |ws| && Signalled(ws, |ws|)[i].mutex == ws[i].mutex)
      <==> OneMutex(ws)
  {
    SignalledInOrder(ws, |ws|);
  }

  /** Two waiters that gave up different mutexes: the second one is given the first one's. */
  lemma {:induction false} RelocksAnother()
    ensures exists ws: seq<CondWaiter> ::
      |ws| == 2 && |Signalled(ws, 2)| == 2 && Signalled(ws, 2)[1].mutex != ws[1].mutex
  {
    var ws := [CondWaiter(1, 0, 0), CondWaiter(2, 1, 0)];
    SignalledInOrder(ws, 2);
    assert Signalled(ws, 2)[1].mutex != ws[1].mutex;
  }

  lemma {:induction false} ErasedOneMutex(ws: seq<CondWaiter>)
    requires ws != [] && OneMutex(ws)
    ensures Erased(ws) == ws[1..] && OneMutex(Erased(ws))
  {
  }

  // ----- barriers -----

  datatype Barrier = Barrier(count: nat, waiting: seq<Core>, maxTime: nat)

  datatype Arrival = Arrival(core: Core, time: nat)

  /** The barrier after an arrival, and the cores it releases. */
  function Arrive(b: Barrier, c: Core, time: nat): (Barrier, seq<Core>) {
    var w := b.waiting + [c];
    var m := if |w| == 1 || time > b.maxTime then time else b.maxTime;
    if |w| == b.count then (Barrier(b.count, [], m), w) else (Barrier(b.count, w, m), [])
  }

  datatype Batch = Batch(cores: seq<Core>, time: nat)

  /** The releases a sequence of arrivals causes, with the time in the replies. */
  ghost function Releases(b: Barrier, arrivals: seq<Arrival>): seq<Batch>
    decreases |arrivals|
  {
    if arrivals == [] then []
    else
      var (b', woken) := Arrive(b, arrivals[0].core, arrivals[0].time);
      (if woken != [] then [Batch(woken, b'.maxTime)] else []) + Releases(b', arrivals[1..])
  }

  ghost function ArrivalCores(s: seq<Arrival>): seq<Core> {
    seq(|s|, i requires 0 <= i < |s| => s[i].core)
  }

  ghost function Latest(s: seq<Arrival>): nat
    requires s != []
  {
    if |s| == 1 then s[0].time
    else
      var m := Latest(s[..|s| - 1]);
      if s[|s| - 1].time > m then s[|s| - 1].time else m
  }

  lemma {:induction false} LatestIsMaximum(s: seq<Arrival>)
    requires s != []
    ensures forall i :: 0 <= i < |s| ==> s[i].time <= Latest(s)
    ensures exists i :: 0 <= i < |s| && s[i].time == Latest(s)
  {
    var n := |s| - 1;
    if n > 0 {
      LatestIsMaximum(s[..n]);
      var i :| 0 <= i < n && s[..n][i].time == Latest(s[..n]);
      assert s[i].time == Latest(s) || s[n].time == Latest(s);
      forall j | 0 <= j < |s|
        ensures s[j].time <= Latest(s)
      {
        assert j < n ==> s[..n][j] == s[j];
      }
    } else {
      assert s[0].time == Latest(s);
    }
  }

  /** Whole groups of `n` consecutive arrivals, each with its latest time. */
  ghost function Groups(s: seq<Arrival>, n: nat): seq<Batch>
    requires n > 0
  {
    if |s| < n then [] else [Batch(ArrivalCores(s[..n]), Latest(s[..n]))] + Groups(s[n..], n)
  }

  /** A barrier in which the arrivals `s` wait. */
  ghost predicate HeldUp(b: Barrier, s: seq<Arrival>) {
    b.waiting == ArrivalCores(s) && |s| < b.count && (s != [] ==> b.maxTime == Latest(s))
  }

  /** A barrier releases its callers in whole batches of `count` consecutive arrivals, each with
      the batch's latest time, over any number of reuses. */
  lemma {:induction false} BarrierBatches(b: Barrier, s: seq<Arrival>, arrivals: seq<Arrival>)
    requires HeldUp(b, s)
    ensures Releases(b, arrivals) == Groups(s + arrivals, b.count)
    decreases |arrivals|
  {
    if arrivals == [] {
      assert s + arrivals == s;
    } else {
      var a := arrivals[0];
      var t := s + [a];
      var (b', woken) := Arrive(b, a.core, a.time);
      assert ArrivalCores(t) == b.waiting + [a.core];
      assert t[..|t| - 1] == s;
      assert s + arrivals == t + arrivals[1..];
      if |t| == b.count {
        assert (t + arrivals[1..])[..b.count] == t && (t + arrivals[1..])[b.count..] == arrivals[1..];
        BarrierBatches(b', [], arrivals[1..]);
        assert [] + arrivals[1..] == arrivals[1..];
      } else {
        BarrierBatches(b', t, arrivals[1..]);
      }
    }
  }

  // ----- futexes -----

  type Futexes = map<int, seq<Core>>

  function QueueOf(f: Futexes, a: int): seq<Core> {
    if a in f then f[a] else []
  }

  function Min(a: int, b: int): int { if a < b then a else b }

  /** How many of `n` waiters a request for `v` takes. */
  function Taken(v: int, n: nat): (r: nat)
    ensures r <= n && (r == v || r == n || v < 0)
    ensures if v < 0 then r == 0 else r <= v
  {
    if v < 0 then 0 else Min(v, n)
  }

  /** Wakes up to `v` waiters of `a`, first come first. */
  function Wake(f: Futexes, a: int, v: int): (Futexes, seq<Core>) {
    var q := QueueOf(f, a);
    var k := Taken(v, |q|);
    (f[a := q[k..]], q[..k])
  }

  /** Moves waiters of `a` one by one to the end of `b`, at most `v` of them. */
  ghost function Requeue(f: Futexes, a: int, b: int, v: int): (Futexes, nat)
    decreases if v > 0 then v else 0
  {
    var q := QueueOf(f, a);
    if v <= 0 || q == [] then (f, 0)
    else
      var g := f[a := q[1..]];
      var (h, n) := Requeue(g[b := QueueOf(g, b) + [q[0]]], a, b, v - 1);
      (h, n + 1)
  }

  /** Between different futexes: the first waiters move in order, the rest stay. */
  lemma {:induction false} RequeueMoves(f: Futexes, a: int, b: int, v: int)
    requires a != b
    ensures var (g, n) := Requeue(f, a, b, v);
      var q := QueueOf(f, a);
      && n == Taken(v, |q|)
      && QueueOf(g, a) == q[n..] && QueueOf(g, b) == QueueOf(f, b) + q[..n]
      && forall x :: x != a && x != b ==> QueueOf(g, x) == QueueOf(f, x)
    decreases if v > 0 then v else 0
  {
    hide QueueOf, Taken;
    var q := QueueOf(f, a);
    TakenOneMore(v, |q|);
    if v > 0 && q != [] {
      var g := f[a := q[1..]];
      var h := g[b := QueueOf(g, b) + [q[0]]];
      MovedOne(f, a, b);
      RequeueMoves(h, a, b, v - 1);
      FirstThenSlice(QueueOf(f, b), q, Requeue(h, a, b, v - 1).1);
    } else {
      assert QueueOf(f, b) + q[..0] == QueueOf(f, b);
    }
  }

  lemma {:induction false} TakenOneMore(v: int, n: nat)
    ensures Taken(v, n) == if v > 0 && n > 0 then Taken(v - 1, n - 1) + 1 else 0
  {
  }

  lemma {:induction false} FirstThenSlice(b: seq<Core>, q: seq<Core>, n: nat)
    requires n < |q|
    ensures q[1..][n..] == q[n + 1..] && b + [q[0]] + q[1..][..n] == b + q[..n + 1]
  {
  }

  lemma {:induction false} MovedOne(f: Futexes, a: int, b: int)
    requires a != b && QueueOf(f, a) != []
    ensures var q := QueueOf(f, a);
      var g := f[a := q[1..]];
      var h := g[b := QueueOf(g, b) + [q[0]]];
      && QueueOf(h, a) == q[1..] && QueueOf(h, b) == QueueOf(f, b) + [q[0]]
      && forall x :: x != a && x != b ==> QueueOf(h, x) == QueueOf(f, x)
  {
  }

  lemma {:induction false} WakeQueues(f: Futexes, a: int, v: int)
    ensures var (g, woken) := Wake(f, a, v);
      var q := QueueOf(f, a);
      var k := Taken(v, |q|);
      && woken == q[..k] && QueueOf(g, a) == q[k..] && forall x :: x != a ==> QueueOf(g, x) == QueueOf(f, x)
  {
  }

  lemma {:induction false} SliceOfSlice(q: seq<Core>, k: nat, m: nat)
    requires k + m <= |q|
    ensures q[k..][..m] == q[k..k + m] && q[k..][m..] == q[k + m..]
  {
  }

  /** The queue after `v` times moving its first to its end. */
  ghost function Turned(q: seq<Core>, v: int): (r: seq<Core>)
    ensures |r| == |q|
    decreases if v > 0 then v else 0
  {
    if v <= 0 || q == [] then q else Turned(q[1..] + [q[0]], v - 1)
  }

  lemma {:induction false} TurnedFrom(q: seq<Core>, i: nat, v: nat)
    requires i + v <= |q|
    ensures Turned(q[i..] + q[..i], v) == q[i + v..] + q[..i + v]
    decreases v
  {
    if v > 0 {
      var p := q[i..] + q[..i];
      assert p[1..] + [p[0]] == q[i + 1..] + q[..i + 1];
      TurnedFrom(q, i + 1, v - 1);
    }
  }

  /** Up to a whole turn: the first `v` are behind the others, all in order. */
  lemma {:induction false} TurnedIs(q: seq<Core>, v: nat)
    requires v <= |q|
    ensures Turned(q, v) == q[v..] + q[..v]
  {
    TurnedFrom(q, 0, v);
    assert q[0..] + q[..0] == q;
  }

  lemma {:induction false} TurnedTwice(q: seq<Core>, u: nat, v: nat)
    ensures Turned(q, u + v) == Turned(Turned(q, u), v)
    decreases u
  {
    if u > 0 && q != [] {
      TurnedTwice(q[1..] + [q[0]], u - 1, v);
    }
  }

  /** A whole turn changes nothing. */
  lemma {:induction false} TurnedRound(q: seq<Core>, v: nat)
    ensures Turned(q, |q| + v) == Turned(q, v)
  {
    TurnedTwice(q, |q|, v);
    TurnedIs(q, |q|);
    assert q[|q|..] + q[..|q|] == q;
  }

  /** Onto the same futex: the queue only turns, and the count does not stop at its end. */
  lemma {:induction false} RequeueTurns(f: Futexes, a: int, v: int)
    ensures var (g, n) := Requeue(f, a, a, v);
      && n == (if v <= 0 || QueueOf(f, a) == [] then 0 else v)
      && QueueOf(g, a) == Turned(QueueOf(f, a), v)
      && forall x :: x != a ==> QueueOf(g, x) == QueueOf(f, x)
    decreases if v > 0 then v else 0
  {
    var q := QueueOf(f, a);
    if v > 0 && q != [] {
      var g := f[a := q[1..]];
      var h := g[a := QueueOf(g, a) + [q[0]]];
      assert QueueOf(h, a) == q[1..] + [q[0]];
      RequeueTurns(h, a, v - 1);
    }
  }

  /** Wake the first `v1` waiters of `a`, then move up to `v2` to `b`: the queues after it, the
      woken, and the number returned. */
  ghost function WakeAndRequeue(f: Futexes, a: int, v1: int, v2: int, b: int): (Futexes, seq<Core>, nat) {
    var (g, woken) := Wake(f, a, v1);
    var (h, moved) := Requeue(g, a, b, v2);
    (h, woken, |woken| + moved)
  }

  /** Waiters are conserved, in order; the result is what was woken and moved. */
  lemma {:induction false} RequeueConserves(f: Futexes, a: int, v1: int, v2: int, b: int)
    requires a != b
    ensures var (h, woken, n) := WakeAndRequeue(f, a, v1, v2, b);
      var q := QueueOf(f, a);
      var k := Taken(v1, |q|);
      var m := Taken(v2, |q| - k);
      && woken == q[..k] && n == k + m
      && QueueOf(h, b) == QueueOf(f, b) + q[k..k + m] && QueueOf(h, a) == q[k + m..]
      && forall x :: x != a && x != b ==> QueueOf(h, x) == QueueOf(f, x)
  {
    hide Requeue, Wake, QueueOf, Taken;
    var q := QueueOf(f, a);
    WakeQueues(f, a, v1);
    RequeueMoves(Wake(f, a, v1).0, a, b, v2);
    SliceOfSlice(q, Taken(v1, |q|), Taken(v2, |q| - Taken(v1, |q|)));
  }

  /** The number returned is what was woken plus what could move, exactly when the futexes differ
      or the queue is not turned past its end. */
  lemma {:induction false} RequeueCount(f: Futexes, a: int, v1: int, v2: int, b: int)
    ensures var k := Taken(v1, |QueueOf(f, a)|);
      var rest := |QueueOf(f, a)| - k;
      WakeAndRequeue(f, a, v1, v2, b).2 == k + Taken(v2, rest) <==> a != b || rest == 0 || v2 <= rest
  {
    var (g, woken) := Wake(f, a, v1);
    if a == b {
      RequeueTurns(g, a, v2);
    } else {
      RequeueMoves(g, a, b, v2);
    }
  }
}
