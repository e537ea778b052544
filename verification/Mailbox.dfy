/** One buffer list of the transport (common/transport/socktransport.cc) with its lock and its
    semaphore, used by any number of inserting and receiving threads in any interleaving. */
module Mailboxes {
  import opened ThreadSums
  import opened Framing

  datatype Pc =
    | Idle
    | Inserting(message: Buffer)   // insert: before taking the lock
    | Pushing(message: Buffer)     // insert: holds the lock
    | Pushed                  // insert: holds the lock, message in the list
    | Signalling              // insert: released the lock, before the semaphore's signal
    | Waiting                 // recv: at the semaphore's wait
    | Granted                 // recv: took a unit, before taking the lock
    | Popping                 // recv: holds the lock, about to take the front
    | Popped(message: Buffer)      // recv: holds the lock, has the message

  /** `inserted` and `received` record the messages in the order in which they went in and out. */
  datatype State = State(list: seq<Buffer>, units: nat, locked: bool, pcs: seq<Pc>,
    inserted: seq<Buffer>, received: seq<Buffer>)

  datatype Move =
    | Insert(i: nat, message: Buffer)
    | Recv(i: nat)
    | Step(i: nat)

  ghost predicate Init(s: State) {
    && s.list == [] && s.units == 0 && !s.locked && s.inserted == [] && s.received == []
    && forall i :: 0 <= i < |s.pcs| ==> s.pcs[i] == Idle
  }

  ghost predicate Enabled(s: State, m: Move) {
    m.i < |s.pcs| &&
    var p := s.pcs[m.i];
    match m
    case Insert(_, _) => p.Idle?
    case Recv(_) => p.Idle?
    case Step(_) =>
      match p
      case Idle => false
      case Inserting(_) => !s.locked
      case Granted => !s.locked
      case Waiting => s.units > 0
      case _ => true
  }

  ghost function Goto(s: State, i: nat, p: Pc): State
    requires i < |s.pcs|
  {
    s.(pcs := s.pcs[i := p])
  }

  /** The check that the list is not empty; it fails in no run. */
  ghost predicate CheckFails(s: State, i: nat)
    requires i < |s.pcs|
  {
    s.pcs[i].Popping? && s.list == []
  }

  ghost function Apply(s: State, m: Move): State
    requires Enabled(s, m) && !CheckFails(s, m.i)
  {
    var i := m.i;
    match m
    case Insert(_, x) => Goto(s, i, Inserting(x))
    case Recv(_) => Goto(s, i, Waiting)
    case Step(_) =>
      match s.pcs[i]
      case Idle => s
      case Inserting(x) => Goto(s, i, Pushing(x)).(locked := true)
      case Pushing(x) => Goto(s, i, Pushed).(list := s.list + [x], inserted := s.inserted + [x])
      case Pushed => Goto(s, i, Signalling).(locked := false)
      case Signalling => Goto(s, i, Idle).(units := s.units + 1)
      case Waiting => Goto(s, i, Granted).(units := s.units - 1)
      case Granted => Goto(s, i, Popping).(locked := true)
      case Popping => Goto(s, i, Popped(s.list[0])).(list := s.list[1..], received := s.received + [s.list[0]])
      case Popped(_) => Goto(s, i, Idle).(locked := false)
  }

  ghost function Holds(p: Pc): nat {
    if p.Pushing? || p.Pushed? || p.Popping? || p.Popped? then 1 else 0
  }

  /** Received a unit but not yet the message. */
  ghost function Owed(p: Pc): nat { if p.Granted? || p.Popping? then 1 else 0 }

  /** Pushed the message but not yet signalled. */
  ghost function Unsignalled(p: Pc): nat { if p.Pushed? || p.Signalling? then 1 else 0 }

  ghost predicate Inv(s: State) {
    && Sum(s.pcs, Holds) == (if s.locked then 1 else 0)
    && |s.list| == s.units + Sum(s.pcs, Owed) + Sum(s.pcs, Unsignalled)
    && s.inserted == s.received + s.list
  }

  lemma {:induction false} NeverEmpty(s: State, i: nat)
    requires Inv(s) && i < |s.pcs|
    ensures !CheckFails(s, i)
  {
    SumSplit(s.pcs, Owed, i);
  }

  lemma {:induction false} StepKeepsOrder(s: State, m: Move)
    requires Enabled(s, m) && !CheckFails(s, m.i) && s.inserted == s.received + s.list
    ensures var t := Apply(s, m); t.inserted == t.received + t.list
  {
    if s.pcs[m.i].Pushing? {
      assert s.received + s.list + [s.pcs[m.i].message] == s.received + (s.list + [s.pcs[m.i].message]);
    } else if s.pcs[m.i].Popping? {
      assert s.list == [s.list[0]] + s.list[1..];
      assert s.received + s.list == s.received + [s.list[0]] + s.list[1..];
    }
  }

  lemma {:induction false} StepInv(s: State, m: Move)
    requires Inv(s) && Enabled(s, m)
    ensures !CheckFails(s, m.i) && Inv(Apply(s, m))
  {
    NeverEmpty(s, m.i);
    StepKeepsOrder(s, m);
    StepKeepsLock(s, m);
    StepKeepsLength(s, m);
    hide Sum, Apply, Enabled, CheckFails;
  }

  lemma {:induction false} StepKeepsLock(s: State, m: Move)
    requires Enabled(s, m) && !CheckFails(s, m.i) && Sum(s.pcs, Holds) == (if s.locked then 1 else 0)
    ensures var t := Apply(s, m); Sum(t.pcs, Holds) == if t.locked then 1 else 0
  {
    SumSplit(s.pcs, Holds, m.i);
    hide Sum;
    SumUpdate(s.pcs, Holds, m.i, Apply(s, m).pcs[m.i]);
  }

  lemma {:induction false} StepKeepsLength(s: State, m: Move)
    requires Enabled(s, m) && !CheckFails(s, m.i)
    requires |s.list| == s.units + Sum(s.pcs, Owed) + Sum(s.pcs, Unsignalled)
    ensures var t := Apply(s, m); |t.list| == t.units + Sum(t.pcs, Owed) + Sum(t.pcs, Unsignalled)
  {
    hide Sum;
    var p := Apply(s, m).pcs[m.i];
    SumUpdate(s.pcs, Owed, m.i, p);
    SumUpdate(s.pcs, Unsignalled, m.i, p);
  }

  lemma {:induction false} IdleSums(pcs: seq<Pc>)
    requires forall i :: 0 <= i < |pcs| ==> pcs[i] == Idle
    ensures Sum(pcs, Holds) == 0 && Sum(pcs, Owed) == 0 && Sum(pcs, Unsignalled) == 0
  {
    if pcs != [] {
      IdleSums(pcs[1..]);
    }
  }

  /** A run, in which every check on the way is met. */
  ghost predicate Runs(s: State, ms: seq<Move>, t: State)
    decreases |ms|
  {
    if ms == [] then s == t
    else Enabled(s, ms[0]) && !CheckFails(s, ms[0].i) && Runs(Apply(s, ms[0]), ms[1..], t)
  }

  lemma {:induction false} RunInv(s: State, ms: seq<Move>, t: State)
    requires Inv(s) && Runs(s, ms, t)
    ensures Inv(t)
    decreases |ms|
  {
    if ms != [] {
      StepInv(s, ms[0]);
      RunInv(Apply(s, ms[0]), ms[1..], t);
    }
  }

  /** In every interleaving the list's length is accounted for, the check for an empty list never
      fails, and messages come out in the order in which they went in, none lost or repeated. */
  lemma {:induction false} MailInOrder(s: State, ms: seq<Move>, t: State)
    requires Init(s) && Runs(s, ms, t)
    ensures |t.list| == t.units + Sum(t.pcs, Owed) + Sum(t.pcs, Unsignalled)
    ensures t.inserted == t.received + t.list
    ensures forall i :: 0 <= i < |t.pcs| ==> !CheckFails(t, i)
  {
    IdleSums(s.pcs);
    RunInv(s, ms, t);
    forall i | 0 <= i < |t.pcs|
      ensures !CheckFails(t, i)
    {
      NeverEmpty(t, i);
    }
  }

  lemma {:induction false} RestSums(pcs: seq<Pc>)
    requires forall i :: 0 <= i < |pcs| ==> pcs[i].Idle? || pcs[i].Waiting?
    ensures Sum(pcs, Holds) == 0 && Sum(pcs, Owed) == 0 && Sum(pcs, Unsignalled) == 0
  {
    if pcs != [] {
      RestSums(pcs[1..]);
    }
  }

  /** When no thread can go on, a receiver still waits only if there is no mail. */
  lemma {:induction false} NobodyWaitsBesideMail(s: State, ms: seq<Move>, t: State)
    requires Init(s) && Runs(s, ms, t) && forall i :: 0 <= i < |t.pcs| ==> !Enabled(t, Step(i))
    ensures forall i :: 0 <= i < |t.pcs| ==> t.pcs[i].Idle? || t.pcs[i].Waiting?
    ensures Waiting in t.pcs ==> t.received == t.inserted
  {
    IdleSums(s.pcs);
    RunInv(s, ms, t);
    if t.locked {
      var h := SumPositive(t.pcs, Holds);
    }
    assert forall i :: 0 <= i < |t.pcs| ==> !Enabled(t, Step(i)) && (t.pcs[i].Idle? || t.pcs[i].Waiting?);
    RestSums(t.pcs);
    if Waiting in t.pcs {
      var i :| 0 <= i < |t.pcs| && t.pcs[i] == Waiting;
      assert !Enabled(t, Step(i));
    }
  }

  // ----- what the calls of a run come to -----

  /** How often a run's calls insert the message `x`, insert anything, and receive. */
  ghost function Given(ms: seq<Move>, x: Buffer): nat {
    if ms == [] then 0 else (if ms[0].Insert? && ms[0].message == x then 1 else 0) + Given(ms[1..], x)
  }

  ghost function InsertCalls(ms: seq<Move>): nat {
    if ms == [] then 0 else (if ms[0].Insert? then 1 else 0) + InsertCalls(ms[1..])
  }

  ghost function RecvCalls(ms: seq<Move>): nat {
    if ms == [] then 0 else (if ms[0].Recv? then 1 else 0) + RecvCalls(ms[1..])
  }

  /** An inserter that has not put its message in the list. */
  ghost function Unput(p: Pc): nat {
    if p.Inserting? || p.Pushing? then 1 else 0
  }

  ghost function InHand(x: Buffer): Pc -> nat {
    (p: Pc) => if (p.Inserting? || p.Pushing?) && p.message == x then 1 else 0
  }

  /** In a receive that has not taken its message. */
  ghost function Unserved(p: Pc): nat {
    if p.Waiting? || p.Granted? || p.Popping? then 1 else 0
  }

  lemma {:induction false} MoveGives(s: State, m: Move, x: Buffer)
    requires Enabled(s, m) && !CheckFails(s, m.i)
    ensures var t := Apply(s, m);
      multiset(t.inserted)[x] + Sum(t.pcs, InHand(x)) ==
        multiset(s.inserted)[x] + Sum(s.pcs, InHand(x)) + Given([m], x)
  {
    hide Sum;
    assert [m][1..] == [];
    SumUpdate(s.pcs, InHand(x), m.i, Apply(s, m).pcs[m.i]);
  }

  lemma {:induction false} MoveCounts(s: State, m: Move)
    requires Enabled(s, m) && !CheckFails(s, m.i)
    ensures var t := Apply(s, m);
      && |t.inserted| + Sum(t.pcs, Unput) == |s.inserted| + Sum(s.pcs, Unput) + InsertCalls([m])
      && |t.received| + Sum(t.pcs, Unserved) == |s.received| + Sum(s.pcs, Unserved) + RecvCalls([m])
  {
    hide Sum;
    assert [m][1..] == [];
    var p := Apply(s, m).pcs[m.i];
    SumUpdate(s.pcs, Unserved, m.i, p);
    SumUpdate(s.pcs, Unput, m.i, p);
  }

  lemma {:induction false} CallsSplit(ms: seq<Move>, x: Buffer)
    requires ms != []
    ensures Given(ms, x) == Given([ms[0]], x) + Given(ms[1..], x)
    ensures InsertCalls(ms) == InsertCalls([ms[0]]) + InsertCalls(ms[1..])
    ensures RecvCalls(ms) == RecvCalls([ms[0]]) + RecvCalls(ms[1..])
  {
    assert [ms[0]][1..] == [];
  }

  lemma {:induction false} RunCounts(s: State, ms: seq<Move>, t: State, x: Buffer)
    requires Runs(s, ms, t)
    ensures multiset(t.inserted)[x] + Sum(t.pcs, InHand(x)) ==
      multiset(s.inserted)[x] + Sum(s.pcs, InHand(x)) + Given(ms, x)
    ensures |t.inserted| + Sum(t.pcs, Unput) == |s.inserted| + Sum(s.pcs, Unput) + InsertCalls(ms)
    ensures |t.received| + Sum(t.pcs, Unserved) == |s.received| + Sum(s.pcs, Unserved) + RecvCalls(ms)
    decreases |ms|
  {
    if ms != [] {
      hide Sum, Enabled, Apply, CheckFails;
      MoveGives(s, ms[0], x);
      MoveCounts(s, ms[0]);
      RunCounts(Apply(s, ms[0]), ms[1..], t, x);
      CallsSplit(ms, x);
    }
  }

  lemma {:induction false} RestHands(pcs: seq<Pc>, x: Buffer)
    requires forall i :: 0 <= i < |pcs| ==> pcs[i].Idle? || pcs[i].Waiting?
    ensures Sum(pcs, InHand(x)) == 0 && Sum(pcs, Unput) == 0 && (Sum(pcs, Unserved) > 0 <==> Waiting in pcs)
  {
    if pcs != [] {
      RestHands(pcs[1..], x);
      assert pcs == [pcs[0]] + pcs[1..];
    }
  }

  /** In every interleaving each message that a call inserts has gone into the list or is still in
      hand, and each receive that was called has got its message or is still under way. */
  lemma {:induction false} CallsCounted(s: State, ms: seq<Move>, t: State, x: Buffer)
    requires Init(s) && Runs(s, ms, t)
    ensures Given(ms, x) == multiset(t.inserted)[x] + Sum(t.pcs, InHand(x))
    ensures InsertCalls(ms) == |t.inserted| + Sum(t.pcs, Unput)
    ensures RecvCalls(ms) == |t.received| + Sum(t.pcs, Unserved)
  {
    hide Runs;
    RunCounts(s, ms, t, x);
    RestHands(s.pcs, x);
  }

  /** When no thread can go on, all messages have gone into the list, and as many have been received
      as there were messages or receives, whichever is less, the first of them in order. */
  lemma {:induction false} ServedAtRest(s: State, ms: seq<Move>, t: State, x: Buffer)
    requires Init(s) && Runs(s, ms, t) && forall i :: 0 <= i < |t.pcs| ==> !Enabled(t, Step(i))
    ensures Given(ms, x) == multiset(t.inserted)[x] && InsertCalls(ms) == |t.inserted| && t.received <= t.inserted
    ensures |t.received| == if RecvCalls(ms) <= InsertCalls(ms) then RecvCalls(ms) else InsertCalls(ms)
  {
    hide Runs, Sum, Given, RecvCalls, InsertCalls, Enabled;
    CallsCounted(s, ms, t, x);
    NobodyWaitsBesideMail(s, ms, t);
    MailInOrder(s, ms, t);
    RestHands(t.pcs, x);
  }
}
