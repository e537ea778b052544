/** The transport barrier (common/transport/socktransport.cc): two trips of messages around the
    ring of processes.  Messages and semaphore units carry neither trip nor round.  A process
    sends into its successor's socket, the successor's update thread turns each message into a
    unit of its semaphore, and `wait` takes a unit. */
module RingBarrier {
  import opened ThreadSums

  datatype Pc =
    | Out    // not in the barrier
    | Wait1  // first wait; process 0 has none
    | Send1
    | Wait2
    | Send2  // second send; the last process has none

  /** `left` counts the rounds the process has left; `chan` the messages on their way to it. */
  datatype Process = Process(left: nat, pc: Pc, sem: nat, chan: nat)

  type Ring = s: seq<Process> | |s| > 0 witness [Process(0, Out, 0, 0)]

  ghost function Next(n: nat, i: nat): nat
    requires i < n
  {
    (i + 1) % n
  }

  ghost function Prev(n: nat, i: nat): nat
    requires i < n
  {
    (i + n - 1) % n
  }

  datatype Move = Enter(i: nat) | Deliver(i: nat) | Step(i: nat)

  ghost predicate Enabled(s: Ring, m: Move) {
    m.i < |s| &&
    var p := s[m.i];
    match m
    case Enter(_) => p.pc.Out?
    case Deliver(_) => p.chan > 0
    case Step(_) => p.pc.Send1? || p.pc.Send2? || (!p.pc.Out? && p.sem > 0)
  }

  /** A message put into the socket of process `i`. */
  ghost function Sent(s: Ring, i: nat): Ring
    requires i < |s|
  {
    s[i := s[i].(chan := s[i].chan + 1)]
  }

  ghost function Apply(s: Ring, m: Move): (t: Ring)
    requires Enabled(s, m)
    ensures |t| == |s|
  {
    var n, i, p := |s|, m.i, s[m.i];
    match m
    case Enter(_) => s[i := p.(pc := if i != 0 then Wait1 else Send1)]
    case Deliver(_) => s[i := p.(chan := p.chan - 1, sem := p.sem + 1)]
    case Step(_) =>
      match p.pc
      case Out => s
      case Wait1 => s[i := p.(pc := Send1, sem := p.sem - 1)]
      case Send1 => Sent(s[i := p.(pc := Wait2)], Next(n, i))
      case Wait2 =>
        if i != n - 1 then s[i := p.(pc := Send2, sem := p.sem - 1)]
        else s[i := p.(pc := Out, left := p.left + 1, sem := p.sem - 1)]
      case Send2 => Sent(s[i := p.(pc := Out, left := p.left + 1)], Next(n, i))
  }

  ghost predicate Init(s: Ring) {
    forall i :: 0 <= i < |s| ==> s[i] == Process(0, Out, 0, 0)
  }

  ghost function Entered(p: Process): nat {
    if p.pc.Out? then p.left else p.left + 1
  }

  // ----- messages and units are conserved on every edge of the ring -----

  /** The messages process `i` has sent so far. */
  ghost function Sends(n: nat, i: nat, p: Process): nat {
    (if i == n - 1 then p.left else 2 * p.left) + if p.pc.Wait2? || p.pc.Send2? then 1 else 0
  }

  /** The units process `i` has taken so far. */
  ghost function Takes(n: nat, i: nat, p: Process): nat {
    if i == 0 then p.left + (if p.pc.Send2? then 1 else 0)
    else 2 * p.left + match p.pc { case Out => 0 case Wait1 => 0 case Send1 => 1 case Wait2 => 1 case Send2 => 2 }
  }

  ghost predicate Balanced(s: Ring, i: nat)
    requires i < |s|
  {
    var n := |s|;
    s[i].sem + s[i].chan + Takes(n, i, s[i]) == Sends(n, Prev(n, i), s[Prev(n, i)])
  }

  ghost predicate Inv(s: Ring) {
    && (forall i :: 0 <= i < |s| ==> Balanced(s, i))
    && s[0].pc != Wait1 && s[|s| - 1].pc != Send2
  }

  lemma {:induction false} RingOrder(n: nat, i: nat, j: nat)
    requires i < n && j < n
    ensures Next(n, i) == if i == n - 1 then 0 else i + 1
    ensures Prev(n, i) == if i == 0 then n - 1 else i - 1
    ensures Prev(n, j) == i <==> j == Next(n, i)
  {
    NextIs(n, i);
    PrevIs(n, i);
    PrevIs(n, j);
  }

  lemma {:induction false} NextIs(n: nat, i: nat)
    requires i < n
    ensures Next(n, i) == if i == n - 1 then 0 else i + 1
  {
  }

  lemma {:induction false} PrevIs(n: nat, i: nat)
    requires i < n
    ensures Prev(n, i) == if i == 0 then n - 1 else i - 1
  {
    if i > 0 {
      assert i + n - 1 == n + (i - 1);
      assert (n + (i - 1)) % n == i - 1;
    }
  }

  /** A step that sends: the successor's edge gains what the sender has sent. */
  lemma {:induction false} SendBalanced(s: Ring, i: nat, j: nat)
    requires Inv(s) && i < |s| && j < |s| && (s[i].pc.Send1? || s[i].pc.Send2?)
    ensures Balanced(Apply(s, Step(i)), j)
  {
    hide Next, Prev;
    assert Balanced(s, j);
    RingOrder(|s|, i, j);
    RingOrder(|s|, j, j);
    RingOrder(|s|, i, i);
  }

  /** Any other step changes one process. */
  lemma {:induction false} OtherBalanced(s: Ring, m: Move, j: nat)
    requires Inv(s) && Enabled(s, m) && j < |s| && !(m.Step? && (s[m.i].pc.Send1? || s[m.i].pc.Send2?))
    ensures Balanced(Apply(s, m), j)
  {
    hide Next, Prev;
    assert Balanced(s, j);
    RingOrder(|s|, m.i, j);
    RingOrder(|s|, j, j);
  }

  lemma {:induction false} StepInv(s: Ring, m: Move)
    requires Inv(s) && Enabled(s, m)
    ensures Inv(Apply(s, m))
  {
    forall j | 0 <= j < |s|
      ensures Balanced(Apply(s, m), j)
    {
      if m.Step? && (s[m.i].pc.Send1? || s[m.i].pc.Send2?) {
        SendBalanced(s, m.i, j);
      } else {
        OtherBalanced(s, m, j);
      }
    }
    hide Balanced;
  }

  ghost predicate Runs(s: Ring, ms: seq<Move>, t: Ring)
    decreases |ms|
  {
    if ms == [] then s == t else Enabled(s, ms[0]) && Runs(Apply(s, ms[0]), ms[1..], t)
  }

  lemma {:induction false} RunInv(s: Ring, ms: seq<Move>, t: Ring)
    requires Inv(s) && Runs(s, ms, t)
    ensures Inv(t)
    decreases |ms|
  {
    if ms != [] {
      StepInv(s, ms[0]);
      RunInv(Apply(s, ms[0]), ms[1..], t);
    }
  }

  lemma {:induction false} InitInv(s: Ring)
    requires Init(s)
    ensures Inv(s)
  {
    forall i | 0 <= i < |s|
      ensures Balanced(s, i)
    {
      PrevIs(|s|, i);
    }
  }

  // ----- safety -----

  /** A process that has left `r` rounds follows predecessors that have, back to process 0. */
  lemma {:induction false} LeftBack(s: Ring, i: nat, r: nat)
    requires Inv(s) && i < |s| && s[i].left >= r
    ensures s[0].left >= r
  {
    if i > 0 {
      PrevIs(|s|, i);
      assert Balanced(s, i);
      LeftBack(s, i - 1, r);
    }
  }

  /** A process that has made its first send of round `r` follows predecessors that have. */
  lemma {:induction false} SentBack(s: Ring, i: nat, r: nat, j: nat)
    requires Inv(s) && j <= i < |s| && r > 0
    requires s[i].left >= r || (s[i].left == r - 1 && (s[i].pc.Wait2? || s[i].pc.Send2?))
    ensures Entered(s[j]) >= r
    decreases i
  {
    if i > j {
      PrevIs(|s|, i);
      assert Balanced(s, i);
      SentBack(s, i - 1, r, j);
    }
  }

  /** No process leaves round `r` before all have entered it. */
  lemma {:induction false} NobodyLeavesEarly(s: Ring, ms: seq<Move>, t: Ring, i: nat, j: nat)
    requires Init(s) && Runs(s, ms, t) && i < |t| && j < |t|
    ensures t[i].left <= Entered(t[j])
  {
    InitInv(s);
    RunInv(s, ms, t);
    var r := t[i].left;
    if r > 0 {
      LeftBack(t, i, r);
      PrevIs(|t|, 0);
      assert Balanced(t, 0);
      SentBack(t, |t| - 1, r, j);
    }
  }

  // ----- progress -----

  ghost predicate Stuck(s: Ring) {
    forall m: Move :: m.Deliver? || m.Step? ==> !Enabled(s, m)
  }

  /** In a stuck ring everyone outside is empty-handed, and everyone inside waits in vain. */
  lemma {:induction false} StuckAt(s: Ring, i: nat)
    requires Stuck(s) && i < |s|
    ensures s[i].chan == 0 && !s[i].pc.Send1? && !s[i].pc.Send2? && (!s[i].pc.Out? ==> s[i].sem == 0)
  {
    assert !Enabled(s, Deliver(i)) && !Enabled(s, Step(i));
  }

  lemma {:induction false} StuckBehind1(s: Ring, i: nat) returns (k: nat)
    requires Inv(s) && Stuck(s) && i < |s|
    requires s[i].pc.Wait1? || s[i].pc.Out?
    ensures k < |s| && s[k].pc.Out? && s[k].left == s[i].left
    decreases i
  {
    if s[i].pc.Out? {
      k := i;
    } else {
      PrevIs(|s|, i);
      assert Balanced(s, i);
      StuckAt(s, i);
      StuckAt(s, i - 1);
      k := StuckBehind1(s, i - 1);
    }
  }

  /** A second wait in vain goes back to one of process 0 in the same round. */
  lemma {:induction false} StuckFirst(s: Ring, i: nat)
    requires Inv(s) && Stuck(s) && i < |s| && s[i].pc.Wait2?
    ensures s[0].pc.Wait2? && s[0].left == s[i].left
    decreases i
  {
    if i > 0 {
      PrevIs(|s|, i);
      assert Balanced(s, i);
      StuckAt(s, i);
      StuckAt(s, i - 1);
      StuckFirst(s, i - 1);
    }
  }

  lemma {:induction false} StuckBehind2(s: Ring, i: nat) returns (k: nat)
    requires Inv(s) && Stuck(s) && i < |s| && s[i].pc.Wait2?
    ensures k < |s| && s[k].pc.Out? && s[k].left == s[i].left
  {
    StuckFirst(s, i);
    PrevIs(|s|, 0);
    assert Balanced(s, 0);
    StuckAt(s, 0);
    StuckAt(s, |s| - 1);
    if s[|s| - 1].pc.Wait2? {
      StuckFirst(s, |s| - 1);
    }
    k := StuckBehind1(s, |s| - 1);
  }

  /** Once all have entered round `r`, some step is enabled until all have left it. */
  lemma {:induction false} NoDeadlock(s: Ring, ms: seq<Move>, t: Ring, r: nat, i: nat)
    requires Init(s) && Runs(s, ms, t) && i < |t| && t[i].left < r
    requires forall j :: 0 <= j < |t| ==> Entered(t[j]) >= r
    ensures exists m: Move :: (m.Deliver? || m.Step?) && Enabled(t, m)
  {
    InitInv(s);
    RunInv(s, ms, t);
    if Stuck(t) {
      StuckAt(t, i);
      var k;
      if t[i].pc.Wait1? {
        k := StuckBehind1(t, i);
      } else {
        k := StuckBehind2(t, i);
      }
    }
  }

  /** Steps left in the round, counting what each message still has to go through. */
  ghost function Left(p: Process): nat {
    2 * p.chan + p.sem + match p.pc { case Out => 0 case Send2 => 3 case Wait2 => 4 case Send1 => 7 case Wait1 => 8 }
  }

  /** Every step other than a new entry brings the round nearer to its end. */
  lemma {:induction false} StepDescends(s: Ring, m: Move)
    requires Enabled(s, m) && !m.Enter?
    ensures Sum(Apply(s, m), Left) < Sum(s, Left)
  {
    hide Sum, Next;
    var t := Apply(s, m);
    if m.Step? && (s[m.i].pc.Send1? || s[m.i].pc.Send2?) {
      var q := s[m.i].(pc := if s[m.i].pc.Send1? then Wait2 else Out,
        left := if s[m.i].pc.Send1? then s[m.i].left else s[m.i].left + 1);
      var u := s[m.i := q];
      var k := Next(|s|, m.i);
      NextIs(|s|, m.i);
      SumUpdate(s, Left, m.i, q);
      SumUpdate(u, Left, k, u[k].(chan := u[k].chan + 1));
    } else {
      SumUpdate(s, Left, m.i, t[m.i]);
    }
  }

  /** When all have left the same round, no message and no unit is left over. */
  lemma {:induction false} NothingLeftOver(s: Ring, ms: seq<Move>, t: Ring, r: nat)
    requires Init(s) && Runs(s, ms, t)
    requires forall i :: 0 <= i < |t| ==> t[i].left == r && t[i].pc.Out?
    ensures forall i :: 0 <= i < |t| ==> t[i].sem == 0 && t[i].chan == 0
  {
    InitInv(s);
    RunInv(s, ms, t);
    forall i | 0 <= i < |t|
      ensures t[i].sem == 0 && t[i].chan == 0
    {
      assert Balanced(t, i);
      PrevIs(|t|, i);
    }
  }

  // ----- what the calls of a run come to -----

  /** How often process `i` calls the barrier. */
  ghost function Calls(ms: seq<Move>, i: nat): nat {
    if ms == [] then 0 else (if ms[0] == Enter(i) then 1 else 0) + Calls(ms[1..], i)
  }

  lemma {:induction false} MoveEnters(s: Ring, m: Move, i: nat)
    requires Enabled(s, m) && i < |s|
    ensures Entered(Apply(s, m)[i]) == Entered(s[i]) + if m == Enter(i) then 1 else 0
  {
    hide Next;
    NextIs(|s|, m.i);
  }

  lemma {:induction false} RunEnters(s: Ring, ms: seq<Move>, t: Ring, i: nat)
    requires Runs(s, ms, t) && i < |s|
    ensures |t| == |s| && Entered(t[i]) == Entered(s[i]) + Calls(ms, i)
    decreases |ms|
  {
    if ms != [] {
      hide Enabled, Apply, Entered;
      MoveEnters(s, ms[0], i);
      RunEnters(Apply(s, ms[0]), ms[1..], t, i);
    }
  }

  /** In every interleaving each call of the barrier is a round entered. */
  lemma {:induction false} CallsCounted(s: Ring, ms: seq<Move>, t: Ring, i: nat)
    requires Init(s) && Runs(s, ms, t) && i < |s|
    ensures |t| == |s| && Entered(t[i]) == Calls(ms, i)
  {
    hide Runs;
    RunEnters(s, ms, t, i);
  }

  /** When nothing can go on, every process has returned from exactly as many calls as the process
      that has called least often. */
  lemma {:induction false} ReturnedAtRest(s: Ring, ms: seq<Move>, t: Ring, i: nat)
    requires Init(s) && Runs(s, ms, t) && Stuck(t) && i < |s|
    ensures |t| == |s| && (forall j :: 0 <= j < |s| ==> t[i].left <= Calls(ms, j))
    ensures exists j :: 0 <= j < |s| && t[i].left == Calls(ms, j)
  {
    hide Runs, Stuck, Calls, Entered;
    CallsCounted(s, ms, t, i);
    forall j | 0 <= j < |s|
      ensures |t| == |s| && t[i].left <= Calls(ms, j) == Entered(t[j])
    {
      CallsCounted(s, ms, t, j);
      NobodyLeavesEarly(s, ms, t, i, j);
    }
    if forall j :: 0 <= j < |s| ==> t[i].left != Calls(ms, j) {
      assert forall j :: 0 <= j < |t| ==> Entered(t[j]) == Calls(ms, j) && Entered(t[j]) >= t[i].left + 1;
      NoDeadlock(s, ms, t, t[i].left + 1, i);
      NotStuck(t);
    }
  }

  lemma {:induction false} NotStuck(t: Ring)
    requires exists m: Move :: (m.Deliver? || m.Step?) && Enabled(t, m)
    ensures !Stuck(t)
  {
  }
}
