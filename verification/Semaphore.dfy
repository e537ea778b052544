/** Sums of a weight over the threads of a system, and how one thread's move changes them. */
module ThreadSums {
  ghost function Sum<P>(s: seq<P>, f: P -> nat): nat {
    if s == [] then 0 else f(s[0]) + Sum(s[1..], f)
  }

  lemma {:induction false} SumUpdate<P>(s: seq<P>, f: P -> nat, i: nat, x: P)
    requires i < |s|
    ensures Sum(s[i := x], f) + f(s[i]) == Sum(s, f) + f(x)
  {
    if i == 0 {
      assert s[i := x][1..] == s[1..];
    } else {
      assert s[i := x][1..] == s[1..][i - 1 := x];
      SumUpdate(s[1..], f, i - 1, x);
    }
  }

  lemma {:induction false} SumSplit<P>(s: seq<P>, f: P -> nat, i: nat)
    requires i < |s|
    ensures Sum(s, f) == f(s[i]) + Sum(s[..i] + s[i + 1..], f)
  {
    if i == 0 {
      assert s[..0] + s[1..] == s[1..];
    } else {
      SumSplit(s[1..], f, i - 1);
      assert (s[..i] + s[i + 1..])[1..] == s[1..][..i - 1] + s[1..][i..];
    }
  }

  lemma {:induction false} SumPair<P>(s: seq<P>, f: P -> nat, i: nat, j: nat)
    requires i < |s| && j < |s| && i != j
    ensures Sum(s, f) >= f(s[i]) + f(s[j])
  {
    SumSplit(s, f, i);
    var t := s[..i] + s[i + 1..];
    var k := if j < i then j else j - 1;
    assert t[k] == s[j];
    SumSplit(t, f, k);
  }

  lemma {:induction false} SumPositive<P>(s: seq<P>, f: P -> nat) returns (i: nat)
    requires Sum(s, f) > 0
    ensures i < |s| && f(s[i]) > 0
  {
    if f(s[0]) > 0 {
      i := 0;
    } else {
      i := SumPositive(s[1..], f);
      i := i + 1;
    }
  }
}

/** The futex-based counting semaphore (common/misc/semaphore.cc) as interleaved steps of any
    number of threads.  Every access to a shared word is a step of its own; FUTEX_WAIT compares
    the futex word with 0 and sleeps in one step, and may also return spuriously. */
module Semaphores {
  import opened ThreadSums

  datatype Pc =
    | Idle
    | WantWait            // wait: before taking the lock
    | Testing             // wait: holds the lock, about to test the count
    | Registered          // wait: counted itself as waiting
    | Zeroed              // wait: cleared the futex word, about to release the lock
    | Parked              // wait: about to call FUTEX_WAIT
    | Asleep              // wait: inside FUTEX_WAIT
    | Woken               // wait: back from FUTEX_WAIT, before taking the lock
    | Back                // wait: holds the lock again, still counted as waiting
    | Took                // wait: took a unit, about to release the lock
    | WantSignal(all: bool)   // signal or broadcast: before taking the lock
    | InSignal(all: bool)     // about to increment the count
    | Counted(all: bool)      // about to test for waiters
    | Raised(all: bool)       // set the futex word, about to call FUTEX_WAKE
    | Done                    // about to release the lock

  /** The semaphore's fields, the threads, and two counters of its history. */
  datatype State = State(
    count: int, numWaiting: int, futx: int, locked: bool, pcs: seq<Pc>,
    signalled: nat, completed: nat)

  ghost predicate Init(s: State, initial: nat) {
    && s.count == initial && s.numWaiting == 0 && s.futx == 0 && !s.locked
    && s.signalled == 0 && s.completed == 0
    && forall i :: 0 <= i < |s.pcs| ==> s.pcs[i] == Idle
  }

  datatype Move =
    | Call(i: nat, op: Pc)        // an idle thread calls wait, signal or broadcast
    | Run(i: nat)                 // a thread takes its next step
    | Wake(i: nat, sleeper: nat)  // FUTEX_WAKE of one thread picks a sleeper
    | Spurious(i: nat)            // FUTEX_WAIT returns for no reason

  ghost predicate Enabled(s: State, m: Move) {
    m.i < |s.pcs| &&
    match m
    case Call(i, op) => s.pcs[i].Idle? && (op.WantWait? || op.WantSignal?)
    case Run(i) =>
      (match s.pcs[i]
       case Idle => false
       case Asleep => false
       case WantWait => !s.locked
       case Woken => !s.locked
       case WantSignal(_) => !s.locked
       case Raised(all) => all || forall j :: 0 <= j < |s.pcs| ==> s.pcs[j] != Asleep
       case _ => true)
    case Wake(i, j) => s.pcs[i] == Raised(false) && j < |s.pcs| && s.pcs[j].Asleep?
    case Spurious(i) => s.pcs[i].Asleep?
  }

  ghost function Roused(p: Pc): Pc {
    if p.Asleep? then Woken else p
  }

  ghost function RouseAll(pcs: seq<Pc>): seq<Pc> {
    seq(|pcs|, i requires 0 <= i < |pcs| => Roused(pcs[i]))
  }

  ghost function Goto(s: State, i: nat, p: Pc): State
    requires i < |s.pcs|
  {
    s.(pcs := s.pcs[i := p])
  }

  ghost function Apply(s: State, m: Move): State
    requires Enabled(s, m)
  {
    match m
    case Call(i, op) => Goto(s, i, op)
    case Spurious(i) => Goto(s, i, Woken)
    case Wake(i, j) => Goto(Goto(s, j, Woken), i, Done)
    case Run(i) =>
      match s.pcs[i]
      case WantWait => Goto(s, i, Testing).(locked := true)
      case Testing =>
        if s.count <= 0 then Goto(s, i, Registered).(numWaiting := s.numWaiting + 1)
        else Goto(s, i, Took).(count := s.count - 1, completed := s.completed + 1)
      case Registered => Goto(s, i, Zeroed).(futx := 0)
      case Zeroed => Goto(s, i, Parked).(locked := false)
      case Parked => Goto(s, i, if s.futx == 0 then Asleep else Woken)
      case Woken => Goto(s, i, Back).(locked := true)
      case Back => Goto(s, i, Testing).(numWaiting := s.numWaiting - 1)
      case Took => Goto(s, i, Idle).(locked := false)
      case WantSignal(all) => Goto(s, i, InSignal(all)).(locked := true)
      case InSignal(all) => Goto(s, i, Counted(all)).(count := s.count + 1, signalled := s.signalled + 1)
      case Counted(all) => if s.numWaiting > 0 then Goto(s, i, Raised(all)).(futx := 1) else Goto(s, i, Done)
      case Raised(all) => Goto(if all then s.(pcs := RouseAll(s.pcs)) else s, i, Done)
      case Done => Goto(s, i, Idle).(locked := false)
      case _ => s
  }

  // ----- the invariant -----

  ghost function Holds(p: Pc): nat {
    if p.Testing? || p.Registered? || p.Zeroed? || p.Back? || p.Took?
      || p.InSignal? || p.Counted? || p.Raised? || p.Done? then 1 else 0
  }

  ghost function Waits(p: Pc): nat {
    if p.Registered? || p.Zeroed? || p.Parked? || p.Asleep? || p.Woken? || p.Back? then 1 else 0
  }

  ghost function IsAsleep(p: Pc): nat { if p.Asleep? then 1 else 0 }

  ghost function IsParked(p: Pc): nat { if p.Parked? then 1 else 0 }

  ghost function IsCounted(p: Pc): nat { if p.Counted? then 1 else 0 }

  /** Threads that will test the count, or wake one that will, before they rest. */
  ghost function Takes(p: Pc): nat {
    if p.Woken? || p.Back? || p.Testing? || p.Counted? || p.Raised? then 1 else 0
  }

  ghost predicate Inv(s: State, initial: nat) {
    && Sum(s.pcs, Holds) == (if s.locked then 1 else 0)
    && s.numWaiting == Sum(s.pcs, Waits)
    && s.count == initial + s.signalled - s.completed && s.count >= 0
    && (s.futx == 0 || s.futx == 1)
    && (Sum(s.pcs, IsAsleep) > 0 ==> s.count <= Sum(s.pcs, Takes))
    && (Sum(s.pcs, IsParked) > 0 && s.count > Sum(s.pcs, IsCounted) ==> s.futx == 1)
    && (forall i :: 0 <= i < |s.pcs| && (s.pcs[i].Registered? || s.pcs[i].Zeroed?) ==> s.count == 0)
    && (forall i :: 0 <= i < |s.pcs| && s.pcs[i].Zeroed? ==> s.futx == 0)
    && (forall i :: 0 <= i < |s.pcs| && s.pcs[i].Raised? ==> s.futx == 1)
  }

  /** How a move of one thread changes all the sums at once. */
  lemma {:induction false} GotoSums(pcs: seq<Pc>, i: nat, p: Pc)
    requires i < |pcs|
    ensures var t := pcs[i := p];
      && Sum(t, Holds) + Holds(pcs[i]) == Sum(pcs, Holds) + Holds(p)
      && Sum(t, Waits) + Waits(pcs[i]) == Sum(pcs, Waits) + Waits(p)
      && Sum(t, IsAsleep) + IsAsleep(pcs[i]) == Sum(pcs, IsAsleep) + IsAsleep(p)
      && Sum(t, IsParked) + IsParked(pcs[i]) == Sum(pcs, IsParked) + IsParked(p)
      && Sum(t, IsCounted) + IsCounted(pcs[i]) == Sum(pcs, IsCounted) + IsCounted(p)
      && Sum(t, Takes) + Takes(pcs[i]) == Sum(pcs, Takes) + Takes(p)
  {
    hide Holds, Waits, IsAsleep, IsParked, IsCounted, Takes;
    SumUpdate(pcs, Holds, i, p);
    SumUpdate(pcs, Waits, i, p);
    SumUpdate(pcs, IsAsleep, i, p);
    SumUpdate(pcs, IsParked, i, p);
    SumUpdate(pcs, IsCounted, i, p);
    SumUpdate(pcs, Takes, i, p);
  }

  /** Waking every sleeper keeps the lock and the waiters and leaves nobody asleep. */
  lemma {:induction false} RouseSums(pcs: seq<Pc>)
    ensures var t := RouseAll(pcs);
      && Sum(t, Holds) == Sum(pcs, Holds) && Sum(t, Waits) == Sum(pcs, Waits)
      && Sum(t, IsAsleep) == 0 && Sum(t, IsParked) == Sum(pcs, IsParked)
      && Sum(t, IsCounted) == Sum(pcs, IsCounted)
  {
    if pcs != [] {
      RouseSums(pcs[1..]);
      assert RouseAll(pcs)[1..] == RouseAll(pcs[1..]);
    }
  }

  lemma {:induction false} InitInv(s: State, initial: nat)
    requires Init(s, initial)
    ensures Inv(s, initial)
  {
    IdleSums(s.pcs);
  }

  lemma {:induction false} IdleSums(pcs: seq<Pc>)
    requires forall i :: 0 <= i < |pcs| ==> pcs[i] == Idle
    ensures Sum(pcs, Holds) == 0 && Sum(pcs, Waits) == 0 && Sum(pcs, IsAsleep) == 0 && Sum(pcs, IsParked) == 0
  {
    if pcs != [] {
      IdleSums(pcs[1..]);
    }
  }

  /** The thread that holds the lock is the only one that does. */
  lemma {:induction false} OneHolder(s: State, initial: nat, i: nat)
    requires Inv(s, initial) && i < |s.pcs| && Holds(s.pcs[i]) == 1
    ensures s.locked && forall j :: 0 <= j < |s.pcs| && j != i ==> Holds(s.pcs[j]) == 0
  {
    SumSplit(s.pcs, Holds, i);
    forall j | 0 <= j < |s.pcs| && j != i
      ensures Holds(s.pcs[j]) == 0
    {
      SumPair(s.pcs, Holds, i, j);
    }
  }

  lemma {:induction false} NoHolder(s: State, initial: nat)
    requires Inv(s, initial) && !s.locked
    ensures forall j :: 0 <= j < |s.pcs| ==> Holds(s.pcs[j]) == 0
  {
    forall j | 0 <= j < |s.pcs|
      ensures Holds(s.pcs[j]) == 0
    {
      SumSplit(s.pcs, Holds, j);
    }
  }

  lemma {:induction false} SomeSleeper(pcs: seq<Pc>, i: nat)
    requires i < |pcs|
    ensures Sum(pcs, IsAsleep) >= IsAsleep(pcs[i]) && Sum(pcs, IsParked) >= IsParked(pcs[i])
    ensures Sum(pcs, Waits) >= Waits(pcs[i]) && Sum(pcs, IsCounted) >= IsCounted(pcs[i])
  {
    SumSplit(pcs, IsAsleep, i);
    SumSplit(pcs, IsParked, i);
    SumSplit(pcs, Waits, i);
    SumSplit(pcs, IsCounted, i);
  }

  /** Waking the sleepers pays for the unit that was added. */
  lemma {:induction false} WakeInv(s: State, m: Move, initial: nat)
    requires Inv(s, initial) && Enabled(s, m) && s.pcs[m.i].Raised?
    ensures Inv(Apply(s, m), initial)
  {
    hide Sum;
    var i := m.i;
    OneHolder(s, initial, i);
    if m.Wake? {
      GotoSums(s.pcs, m.sleeper, Woken);
      GotoSums(s.pcs[m.sleeper := Woken], i, Done);
    } else if s.pcs[i].all {
      RouseSums(s.pcs);
      GotoSums(RouseAll(s.pcs), i, Done);
    } else {
      GotoSums(s.pcs, i, Done);
      if Sum(s.pcs, IsAsleep) > 0 {
        var j := SumPositive(s.pcs, IsAsleep);
      }
    }
  }

  lemma {:induction false} Included(pcs: seq<Pc>)
    ensures Sum(pcs, IsAsleep) + Sum(pcs, IsParked) <= Sum(pcs, Waits)
    ensures Sum(pcs, IsCounted) <= Sum(pcs, Takes)
  {
    if pcs != [] {
      Included(pcs[1..]);
    }
  }

  lemma {:induction false} LockedStepInv(s: State, m: Move, initial: nat)
    requires Inv(s, initial) && Enabled(s, m) && Holds(s.pcs[m.i]) == 1 && !s.pcs[m.i].Raised?
    ensures Inv(Apply(s, m), initial)
  {
    hide Sum;
    OneHolder(s, initial, m.i);
    SomeSleeper(s.pcs, m.i);
    Included(s.pcs);
    GotoSums(s.pcs, m.i, Apply(s, m).pcs[m.i]);
  }

  lemma {:induction false} UnlockedStepInv(s: State, m: Move, initial: nat)
    requires Inv(s, initial) && Enabled(s, m) && Holds(s.pcs[m.i]) == 0
    ensures Inv(Apply(s, m), initial)
  {
    hide Sum;
    if !s.locked {
      NoHolder(s, initial);
    }
    SomeSleeper(s.pcs, m.i);
    Included(s.pcs);
    GotoSums(s.pcs, m.i, Apply(s, m).pcs[m.i]);
  }

  /** Every step keeps the invariant. */
  lemma {:induction false} StepInv(s: State, m: Move, initial: nat)
    requires Inv(s, initial) && Enabled(s, m)
    ensures Inv(Apply(s, m), initial)
  {
    hide Inv, Apply;
    if s.pcs[m.i].Raised? {
      WakeInv(s, m, initial);
    } else if Holds(s.pcs[m.i]) == 1 {
      LockedStepInv(s, m, initial);
    } else {
      UnlockedStepInv(s, m, initial);
    }
  }

  // ----- whole runs -----

  ghost predicate Runs(s: State, ms: seq<Move>, t: State)
    decreases |ms|
  {
    if ms == [] then s == t else Enabled(s, ms[0]) && Runs(Apply(s, ms[0]), ms[1..], t)
  }

  lemma {:induction false} RunInv(s: State, ms: seq<Move>, t: State, initial: nat)
    requires Runs(s, ms, t) && Inv(s, initial)
    ensures Inv(t, initial)
    decreases |ms|
  {
    if ms != [] {
      StepInv(s, ms[0], initial);
      RunInv(Apply(s, ms[0]), ms[1..], t, initial);
    }
  }

  /** In every interleaving: units are conserved; a sleeper means that every unit has a thread
      awake to take it, or about to wake one; and a thread about to sleep is kept from it by the
      units beyond the one whose signal has not set the word yet.  While the lock is free the former
      are the woken threads and there is no such signal. */
  lemma {:induction false} NoLostWakeup(s: State, ms: seq<Move>, t: State, initial: nat)
    requires Init(s, initial) && Runs(s, ms, t)
    ensures t.count == initial + t.signalled - t.completed && t.count >= 0
    ensures t.numWaiting == Sum(t.pcs, Waits)
    ensures Asleep in t.pcs ==> t.count <= Sum(t.pcs, Takes)
    ensures Parked in t.pcs && t.count > Sum(t.pcs, IsCounted) ==> t.futx == 1
    ensures !t.locked ==> Sum(t.pcs, Takes) == Sum(t.pcs, IsWoken) && Sum(t.pcs, IsCounted) == 0
  {
    InitInv(s, initial);
    RunInv(s, ms, t, initial);
    if Asleep in t.pcs {
      var i :| 0 <= i < |t.pcs| && t.pcs[i] == Asleep;
      SomeSleeper(t.pcs, i);
    }
    if Parked in t.pcs {
      var i :| 0 <= i < |t.pcs| && t.pcs[i] == Parked;
      SomeSleeper(t.pcs, i);
    }
    if !t.locked {
      NoHolder(t, initial);
      FreeSums(t.pcs);
    }
  }

  ghost function IsWoken(p: Pc): nat { if p.Woken? then 1 else 0 }

  lemma {:induction false} FreeSums(pcs: seq<Pc>)
    requires forall i :: 0 <= i < |pcs| ==> Holds(pcs[i]) == 0
    ensures Sum(pcs, Takes) == Sum(pcs, IsWoken) && Sum(pcs, IsCounted) == 0
  {
    if pcs != [] {
      FreeSums(pcs[1..]);
    }
  }

  // ----- progress -----

  /** The moves a thread makes by itself once it has called. */
  ghost predicate Internal(m: Move) {
    m.Run? || m.Wake?
  }

  /** When no thread can move by itself, all are idle or asleep, and none sleeps beside a unit. */
  lemma {:induction false} RestIsServed(s: State, initial: nat)
    requires Inv(s, initial) && forall m :: Internal(m) ==> !Enabled(s, m)
    ensures !s.locked && forall i :: 0 <= i < |s.pcs| ==> s.pcs[i].Idle? || s.pcs[i].Asleep?
    ensures Asleep in s.pcs ==> s.count == 0
  {
    forall i | 0 <= i < |s.pcs|
      ensures s.pcs[i].Idle? || s.pcs[i].Asleep? || (!(Holds(s.pcs[i]) == 1) && s.locked)
    {
      assert !Enabled(s, Run(i));
      if s.pcs[i] == Raised(false) {
        forall j | 0 <= j < |s.pcs|
          ensures s.pcs[j] != Asleep
        {
          assert !Enabled(s, Wake(i, j));
        }
      }
    }
    if s.locked {
      var h := SumPositive(s.pcs, Holds);
    }
    RestSums(s.pcs);
    if Asleep in s.pcs {
      var i :| 0 <= i < |s.pcs| && s.pcs[i] == Asleep;
      SomeSleeper(s.pcs, i);
    }
  }

  lemma {:induction false} RestSums(pcs: seq<Pc>)
    requires forall i :: 0 <= i < |pcs| ==> pcs[i].Idle? || pcs[i].Asleep?
    ensures Sum(pcs, Takes) == 0
  {
    if pcs != [] {
      RestSums(pcs[1..]);
    }
  }

  /** Signals that have not woken anybody yet. */
  ghost function Pending(p: Pc): nat {
    match p
    case WantSignal(_) => 2
    case InSignal(_) => 2
    case Counted(_) => 2
    case Raised(_) => 1
    case _ => 0
  }

  /** How far a thread is from rest while no signal intervenes. */
  ghost function Distance(futx: int): Pc -> nat {
    (p: Pc) =>
      match p
      case Idle => 0
      case Asleep => 0
      case Took => 1
      case Done => 1
      case Parked => if futx == 0 then 1 else 8
      case Zeroed => 2
      case Registered => 3
      case Testing => 4
      case WantWait => 5
      case Back => 5
      case Woken => 6
      case Raised(_) => 2
      case Counted(_) => 3
      case InSignal(_) => 4
      case WantSignal(_) => 5
  }

  lemma {:induction false} DistanceDrops(pcs: seq<Pc>)
    ensures Sum(pcs, Distance(0)) <= Sum(pcs, Distance(1))
  {
    if pcs != [] {
      DistanceDrops(pcs[1..]);
    }
  }

  lemma {:induction false} RousePending(pcs: seq<Pc>)
    ensures Sum(RouseAll(pcs), Pending) == Sum(pcs, Pending)
  {
    if pcs != [] {
      RousePending(pcs[1..]);
      assert RouseAll(pcs)[1..] == RouseAll(pcs[1..]);
    }
  }

  lemma {:induction false} WakeDescends(s: State, m: Move)
    requires Enabled(s, m) && s.pcs[m.i].Raised?
    ensures Sum(Apply(s, m).pcs, Pending) < Sum(s.pcs, Pending)
  {
    hide Sum;
    if m.Wake? {
      SumUpdate(s.pcs, Pending, m.sleeper, Woken);
      SumUpdate(s.pcs[m.sleeper := Woken], Pending, m.i, Done);
    } else if s.pcs[m.i].all {
      RousePending(s.pcs);
      SumUpdate(RouseAll(s.pcs), Pending, m.i, Done);
    } else {
      SumUpdate(s.pcs, Pending, m.i, Done);
    }
  }

  /** Each such move brings the threads nearer to rest: first in the signals still to come, then
      in the steps left. */
  lemma {:induction false} MoveDescends(s: State, m: Move, initial: nat)
    requires Inv(s, initial) && Enabled(s, m) && Internal(m)
    ensures var t := Apply(s, m);
      || Sum(t.pcs, Pending) < Sum(s.pcs, Pending)
      || (Sum(t.pcs, Pending) == Sum(s.pcs, Pending)
          && Sum(t.pcs, Distance(t.futx)) < Sum(s.pcs, Distance(s.futx)))
  {
    hide Sum, Apply, Inv, Pending, Distance;
    var i, t := m.i, Apply(s, m);
    if s.pcs[i].Raised? {
      WakeDescends(s, m);
    } else {
      OneDescends(s, m, initial);
      SumUpdate(s.pcs, Pending, i, t.pcs[i]);
      SumUpdate(s.pcs, Distance(s.futx), i, t.pcs[i]);
      DistanceDrops(t.pcs);
    }
  }

  /** The thread that moves comes nearer itself; nobody else moves. */
  lemma {:induction false} OneDescends(s: State, m: Move, initial: nat)
    requires Inv(s, initial) && Enabled(s, m) && Internal(m) && !s.pcs[m.i].Raised?
    ensures var t := Apply(s, m);
      && t.pcs == s.pcs[m.i := t.pcs[m.i]]
      && (|| Pending(t.pcs[m.i]) < Pending(s.pcs[m.i])
          || (&& Pending(t.pcs[m.i]) == Pending(s.pcs[m.i])
              && (t.futx == s.futx || (t.futx == 0 && s.futx == 1))
              && Distance(s.futx)(t.pcs[m.i]) < Distance(s.futx)(s.pcs[m.i])))
  {
    hide Sum;
  }

  /** Left alone, the threads come to rest, and then nobody sleeps beside a unit. */
  lemma {:induction false} Settles(s: State, initial: nat) returns (ms: seq<Move>, t: State)
    requires Inv(s, initial)
    ensures Runs(s, ms, t) && Inv(t, initial) && (forall m :: m in ms ==> Internal(m))
    ensures !t.locked && forall i :: 0 <= i < |t.pcs| ==> t.pcs[i].Idle? || t.pcs[i].Asleep?
    ensures Asleep in t.pcs ==> t.count == 0
    decreases Sum(s.pcs, Pending), Sum(s.pcs, Distance(s.futx))
  {
    hide Inv, Enabled, Apply;
    if m :| Internal(m) && Enabled(s, m) {
      StepInv(s, m, initial);
      MoveDescends(s, m, initial);
      ms, t := Settles(Apply(s, m), initial);
      ms := [m] + ms;
    } else {
      RestIsServed(s, initial);
      ms, t := [], s;
    }
  }

  // ----- what the calls of a run come to -----

  ghost function WaitCalls(ms: seq<Move>): nat {
    if ms == [] then 0 else (if ms[0].Call? && ms[0].op.WantWait? then 1 else 0) + WaitCalls(ms[1..])
  }

  ghost function SignalCalls(ms: seq<Move>): nat {
    if ms == [] then 0 else (if ms[0].Call? && ms[0].op.WantSignal? then 1 else 0) + SignalCalls(ms[1..])
  }

  /** In a wait that has not taken its unit. */
  ghost function Unserved(p: Pc): nat {
    if p.WantWait? || p.Testing? then 1 else Waits(p)
  }

  /** In a signal or broadcast that has not added its unit. */
  ghost function Unsent(p: Pc): nat {
    if p.WantSignal? || p.InSignal? then 1 else 0
  }

  lemma {:induction false} RouseKeeps(pcs: seq<Pc>)
    ensures Sum(RouseAll(pcs), Unserved) == Sum(pcs, Unserved) && Sum(RouseAll(pcs), Unsent) == Sum(pcs, Unsent)
  {
    if pcs != [] {
      RouseKeeps(pcs[1..]);
      assert RouseAll(pcs)[1..] == RouseAll(pcs[1..]);
    }
  }

  lemma {:induction false} GotoCalls(pcs: seq<Pc>, i: nat, p: Pc)
    requires i < |pcs|
    ensures var t := pcs[i := p];
      && Sum(t, Unserved) + Unserved(pcs[i]) == Sum(pcs, Unserved) + Unserved(p)
      && Sum(t, Unsent) + Unsent(pcs[i]) == Sum(pcs, Unsent) + Unsent(p)
  {
    SumUpdate(pcs, Unserved, i, p);
    SumUpdate(pcs, Unsent, i, p);
  }

  lemma {:induction false} WakeCounts(s: State, m: Move)
    requires Enabled(s, m) && s.pcs[m.i].Raised?
    ensures var t := Apply(s, m);
      && t.completed + Sum(t.pcs, Unserved) == s.completed + Sum(s.pcs, Unserved)
      && t.signalled + Sum(t.pcs, Unsent) == s.signalled + Sum(s.pcs, Unsent)
  {
    hide Sum;
    if m.Wake? {
      GotoCalls(s.pcs, m.sleeper, Woken);
      GotoCalls(s.pcs[m.sleeper := Woken], m.i, Done);
    } else if s.pcs[m.i].all {
      RouseKeeps(s.pcs);
      GotoCalls(RouseAll(s.pcs), m.i, Done);
    } else {
      GotoCalls(s.pcs, m.i, Done);
    }
  }

  lemma {:induction false} MoveCounts(s: State, m: Move)
    requires Enabled(s, m)
    ensures var t := Apply(s, m);
      && t.completed + Sum(t.pcs, Unserved) == s.completed + Sum(s.pcs, Unserved) + WaitCalls([m])
      && t.signalled + Sum(t.pcs, Unsent) == s.signalled + Sum(s.pcs, Unsent) + SignalCalls([m])
  {
    hide Sum;
    assert [m][1..] == [];
    if s.pcs[m.i].Raised? {
      hide Apply;
      WakeCounts(s, m);
    } else {
      GotoCalls(s.pcs, m.i, Apply(s, m).pcs[m.i]);
    }
  }

  lemma {:induction false} CallsSplit(ms: seq<Move>)
    requires ms != []
    ensures WaitCalls(ms) == WaitCalls([ms[0]]) + WaitCalls(ms[1..])
    ensures SignalCalls(ms) == SignalCalls([ms[0]]) + SignalCalls(ms[1..])
  {
    assert [ms[0]][1..] == [];
  }

  lemma {:induction false} RunCounts(s: State, ms: seq<Move>, t: State)
    requires Runs(s, ms, t)
    ensures t.completed + Sum(t.pcs, Unserved) == s.completed + Sum(s.pcs, Unserved) + WaitCalls(ms)
    ensures t.signalled + Sum(t.pcs, Unsent) == s.signalled + Sum(s.pcs, Unsent) + SignalCalls(ms)
    decreases |ms|
  {
    if ms != [] {
      hide Sum, Enabled, Apply;
      MoveCounts(s, ms[0]);
      RunCounts(Apply(s, ms[0]), ms[1..], t);
      CallsSplit(ms);
    }
  }

  lemma {:induction false} IdleCalls(pcs: seq<Pc>)
    requires forall i :: 0 <= i < |pcs| ==> pcs[i].Idle? || pcs[i].Asleep?
    ensures Sum(pcs, Unserved) == Sum(pcs, IsAsleep) && Sum(pcs, Unsent) == 0
    ensures (forall i :: 0 <= i < |pcs| ==> pcs[i].Idle?) ==> Sum(pcs, IsAsleep) == 0
  {
    if pcs != [] {
      IdleCalls(pcs[1..]);
      assert forall i :: 0 <= i < |pcs[1..]| ==> pcs[1..][i] == pcs[i + 1];
    }
  }

  /** In every interleaving each wait that was called has taken a unit or is still under way, and so
      is it with each signal and broadcast that was called, which add one unit each. */
  lemma {:induction false} CallsCounted(s: State, ms: seq<Move>, t: State, initial: nat)
    requires Init(s, initial) && Runs(s, ms, t)
    ensures WaitCalls(ms) == t.completed + Sum(t.pcs, Unserved)
    ensures SignalCalls(ms) == t.signalled + Sum(t.pcs, Unsent)
  {
    hide Runs;
    RunCounts(s, ms, t);
    IdleCalls(s.pcs);
  }

  /** When the threads have come to rest, as many waits have returned as could: all that were called,
      or as many as there were units, whichever is less; the other callers sleep. */
  lemma {:induction false} ServedAtRest(s: State, ms: seq<Move>, t: State, initial: nat)
    requires Init(s, initial) && Runs(s, ms, t) && forall m :: Internal(m) ==> !Enabled(t, m)
    ensures var units := initial + SignalCalls(ms);
      && t.completed == (if WaitCalls(ms) <= units then WaitCalls(ms) else units)
      && Sum(t.pcs, IsAsleep) == WaitCalls(ms) - t.completed && t.count == units - t.completed
  {
    hide Runs, Sum, WaitCalls, SignalCalls, Enabled, Inv;
    InitInv(s, initial);
    RunInv(s, ms, t, initial);
    RestIsServed(t, initial);
    CallsCounted(s, ms, t, initial);
    NoLostWakeup(s, ms, t, initial);
    IdleCalls(t.pcs);
    if Sum(t.pcs, IsAsleep) > 0 {
      var i := SumPositive(t.pcs, IsAsleep);
    }
  }
}
