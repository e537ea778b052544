/** New mutexes, conditions and barriers over whole runs of the master: each init request is answered
    with the number of the object that it made. */
module McpObjects {
  import opened Options
  import opened SyncObjects
  import opened Threads
  import opened MasterControl
  import opened McpInvariant
  import opened McpClients
  import opened McpRuns
  import opened McpOrder

  datatype Kind = OfMutex | OfCond | OfBarrier

  ghost predicate Makes(e: Event, k: Kind) {
    e.Message? && match k
      case OfMutex => e.r.MutexInit?
      case OfCond => e.r.CondInit?
      case OfBarrier => e.r.BarrierInit?
  }

  /** How many objects of a kind there are. */
  ghost function Made(s: Server, k: Kind): nat {
    match k
    case OfMutex => |s.mutexes|
    case OfCond => |s.conds|
    case OfBarrier => |s.barriers|
  }

  ghost function Asks(e: Event, k: Kind): seq<Core> {
    if Makes(e, k) then [e.r.c] else []
  }

  /** Who asks for new objects of a kind in a run, in that order. */
  ghost function Callers(es: seq<Event>, k: Kind): seq<Core> {
    if es == [] then [] else Asks(es[0], k) + Callers(es[1..], k)
  }

  /** The counts of the barriers that a run asks for. */
  ghost function CountsAsked(es: seq<Event>): seq<nat> {
    if es == [] then [] else (if Makes(es[0], OfBarrier) then [es[0].r.count] else []) + CountsAsked(es[1..])
  }

  ghost function CountsOf(bs: seq<Barrier>): seq<nat> {
    seq(|bs|, i requires 0 <= i < |bs| => bs[i].count)
  }

  /** What a run answers to the requests for new objects of a kind, in that order. */
  ghost function MadeAnswers(s: Server, es: seq<Event>, k: Kind): seq<Reply>
    decreases |es|
  {
    if es == [] then []
    else (if Makes(es[0], k) then EventReplies(s, es[0]) else []) + MadeAnswers(NextServer(s, es[0]), es[1..], k)
  }

  /** One answer each, numbered from `n` on. */
  ghost function Numbered(cs: seq<Core>, n: nat): seq<Reply> {
    seq(|cs|, i requires 0 <= i < |cs| => Reply(cs[i], Index(n + i)))
  }

  lemma {:induction false} NumberedMore(cs: seq<Core>, more: seq<Core>, n: nat)
    ensures Numbered(cs + more, n) == Numbered(cs, n) + Numbered(more, n + |cs|)
  {
  }

  lemma {:induction false} AfterOpsSize(ms: seq<Mutex>, ops: seq<Op>)
    ensures |AfterOps(ms, ops)| == |ms|
    decreases |ops|
  {
    if ops != [] {
      AfterOpsSize(AfterOne(ms, ops[0]), ops[1..]);
    }
  }

  /** A request for a new object makes one, and is answered with how many there were before. */
  lemma {:induction false} EventMakes(s: Server, at: map<Core, Place>, e: Event, k: Kind)
    requires Inv(s, at) && Allowed(s, e) && (e.Message? ==> Accepted(s, e.r))
    ensures Made(NextServer(s, e), k) == Made(s, k) + |Asks(e, k)|
    ensures (if Makes(e, k) then EventReplies(s, e) else []) == Numbered(Asks(e, k), Made(s, k))
  {
    hide Handle, Inv, Allowed, Accepted;
    if Makes(e, k) {
      MakeAnswer(s, e.r, k);
    }
    if e.Message? {
      hide Lawful;
      StepLawful(s, at, e.r);
      LawfulMakes(s, e.r, Handle(s, e.r).0, Handle(s, e.r).1, k);
    }
  }

  lemma {:induction false} LawfulMakes(s: Server, r: Request, t: Server, rs: seq<Reply>, k: Kind)
    requires Lawful(s, r, t, rs)
    ensures Made(t, k) == Made(s, k) + |Asks(Message(r), k)|
  {
    hide AfterOps, GrantsBy, Owners, ToldOwners, OpsOf, Erased, Arrive;
    AfterOpsSize(s.mutexes, OpsOf(s, r));
  }

  lemma {:induction false} EventCounts(s: Server, at: map<Core, Place>, e: Event)
    requires Inv(s, at) && Allowed(s, e) && (e.Message? ==> Accepted(s, e.r))
    ensures CountsOf(NextServer(s, e).barriers) == CountsOf(s.barriers) + CountsAsked([e])
  {
    hide Handle, Inv, Allowed, Accepted, MutexesAfter, CondsAfter, BarriersAfter, GrantsBy, Owners, ToldOwners, OpsOf;
    hide CountsOf;
    if e.Message? {
      StepLawful(s, at, e.r);
      RequestCounts(s, e.r);
    } else {
      assert [e][1..] == [];
      assert CountsOf(s.barriers) + [] == CountsOf(s.barriers);
    }
  }

  lemma {:induction false} RequestCounts(s: Server, r: Request)
    ensures CountsOf(BarriersAfter(s, r)) == CountsOf(s.barriers) + CountsAsked([Message(r)])
  {
    hide Arrive;
    assert [Message(r)][1..] == [];
    if r.BarrierWait? && r.b < |s.barriers| {
      ArriveCount(s.barriers[r.b], r.c, r.time);
    }
  }

  lemma {:induction false} ArriveCount(x: Barrier, c: Core, time: nat)
    ensures Arrive(x, c, time).0.count == x.count
  {
  }

  lemma {:induction false} MakeAnswer(s: Server, r: Request, k: Kind)
    requires Makes(Message(r), k)
    ensures Handle(s, r).1 == [Reply(r.c, Index(Made(s, k)))]
  {
  }

  lemma {:induction false} RunMakes(s: Server, at: map<Core, Place>, es: seq<Event>, t: Server, k: Kind)
    requires Inv(s, at) && ServerRuns(s, es, t)
    ensures Made(t, k) == Made(s, k) + |Callers(es, k)|
    ensures MadeAnswers(s, es, k) == Numbered(Callers(es, k), Made(s, k))
    ensures CountsOf(t.barriers) == CountsOf(s.barriers) + CountsAsked(es)
    decreases |es|
  {
    hide Inv, Allowed, Accepted, NextServer, EventReplies, Makes, Asks, Made, CountsOf, Numbered;
    if es == [] {
      NoneMade(Made(s, k));
      assert CountsOf(s.barriers) + [] == CountsOf(s.barriers);
    } else {
      var e, s1 := es[0], NextServer(s, es[0]);
      EventMakes(s, at, e, k);
      EventCounts(s, at, e);
      var at' := ServerStepOk(s, at, e);
      RunMakes(s1, at', es[1..], t, k);
      NumberedMore(Asks(e, k), Callers(es[1..], k), Made(s, k));
      CountsSplit(e, es[1..]);
      assert (CountsOf(s.barriers) + CountsAsked([e])) + CountsAsked(es[1..])
        == CountsOf(s.barriers) + (CountsAsked([e]) + CountsAsked(es[1..]));
      assert es == [e] + es[1..];
    }
  }

  lemma {:induction false} NoneMade(n: nat)
    ensures Numbered([], n) == []
  {
  }

  lemma {:induction false} CountsSplit(e: Event, es: seq<Event>)
    ensures CountsAsked([e] + es) == CountsAsked([e]) + CountsAsked(es)
  {
    assert [e][1..] == [] && ([e] + es)[1..] == es;
  }

  /** In every run the k-th request for a new mutex, condition or barrier, counted from 0, is answered
      exactly once, with k; there are as many objects as requests, and barriers have the counts asked. */
  lemma {:induction false} ObjectsNumbered(s: Server, es: seq<Event>, t: Server, k: Kind)
    requires InitServer(s) && ServerRuns(s, es, t)
    ensures MadeAnswers(s, es, k) == Numbered(Callers(es, k), 0)
    ensures Made(t, k) == |Callers(es, k)|
    ensures CountsOf(t.barriers) == CountsAsked(es)
  {
    InitServerOk(s);
    assert Made(s, k) == 0 && CountsOf(s.barriers) == [];
    hide InitServer, ServerRuns, Inv;
    RunMakes(s, map[], es, t, k);
    assert [] + CountsAsked(es) == CountsAsked(es);
  }

  /** So no two objects of a kind have one number. */
  lemma {:induction false} NumbersApart(s: Server, es: seq<Event>, t: Server, k: Kind, i: nat, j: nat)
    requires InitServer(s) && ServerRuns(s, es, t) && i < j < |MadeAnswers(s, es, k)|
    ensures MadeAnswers(s, es, k)[i].body != MadeAnswers(s, es, k)[j].body
  {
    hide InitServer, ServerRuns;
    ObjectsNumbered(s, es, t, k);
  }

  /** The next new object is free, with nobody waiting and the count asked for; nothing else changes,
      and its number is that of the requests of its kind before. */
  lemma {:induction false} NewObject(s: Server, es: seq<Event>, t: Server, r: Request, k: Kind)
    requires InitServer(s) && ServerRuns(s, es, t) && Makes(Message(r), k)
    ensures var (u, rs) := Handle(t, r);
      var n := |Callers(es, k)|;
      && rs == [Reply(r.c, Index(n))] && Made(t, k) == n && Made(u, k) == n + 1
      && t == u.(mutexes := t.mutexes, conds := t.conds, barriers := t.barriers)
      && u.mutexes[..|t.mutexes|] == t.mutexes && u.conds[..|t.conds|] == t.conds
      && u.barriers[..|t.barriers|] == t.barriers
      && match k
         case OfMutex => u.mutexes[n] == Mutex(None, [])
         case OfCond => u.conds[n] == []
         case OfBarrier => u.barriers[n].count == r.count && u.barriers[n].waiting == []
  {
    hide InitServer, ServerRuns, Callers;
    ObjectsNumbered(s, es, t, k);
  }

  // ----- nobody else is told a number -----

  ghost function Indexed(rs: seq<Reply>): seq<Reply> {
    if rs == [] then [] else (if rs[0].body.Index? then [rs[0]] else []) + Indexed(rs[1..])
  }

  lemma {:induction false} IndexedConcat(a: seq<Reply>, b: seq<Reply>)
    ensures Indexed(a + b) == Indexed(a) + Indexed(b)
  {
    if a == [] {
      assert a + b == b;
    } else {
      assert (a + b)[1..] == a[1..] + b;
      IndexedConcat(a[1..], b);
    }
  }

  ghost predicate MakesAny(e: Event) {
    Makes(e, OfMutex) || Makes(e, OfCond) || Makes(e, OfBarrier)
  }

  /** What a run answers to all requests for new objects. */
  ghost function AllMadeAnswers(s: Server, es: seq<Event>): seq<Reply>
    decreases |es|
  {
    if es == [] then []
    else (if MakesAny(es[0]) then EventReplies(s, es[0]) else []) + AllMadeAnswers(NextServer(s, es[0]), es[1..])
  }

  lemma {:induction false} NumbersOnlyMakers(s: Server, r: Request, i: nat)
    requires i < |Handle(s, r).1| && Handle(s, r).1[i].body.Index?
    ensures MakesAny(Message(r))
  {
    hide LockMutex, UnlockMutex, Awaken, StallThread, ResumeThread, ResumeAll, WakeUp, WakeIf, MoveWaiters, Enqueue;
    hide StallSlot, ScheduleThread, NewThreadId, PickSlot, WakeUpWaiter, NextInLine;
    if r.Exit? || r.Join? {
      LeaversNoNumber(s, r, i);
    }
  }

  lemma {:induction false} LeaversNoNumber(s: Server, r: Request, i: nat)
    requires (r.Exit? || r.Join?) && i < |Handle(s, r).1|
    ensures !Handle(s, r).1[i].body.Index?
  {
    hide StallThread, Finish, ResumeSlot, StartNext, FirstWith;
  }

  lemma {:induction false} IndexedNone(rs: seq<Reply>)
    requires forall i :: 0 <= i < |rs| ==> !rs[i].body.Index?
    ensures Indexed(rs) == []
  {
    if rs != [] {
      IndexedNone(rs[1..]);
    }
  }

  lemma {:induction false} EventIndexed(s: Server, e: Event)
    ensures Indexed(EventReplies(s, e)) == if MakesAny(e) then EventReplies(s, e) else []
  {
    hide Handle;
    var rs := EventReplies(s, e);
    if MakesAny(e) {
      var k :| Makes(e, k);
      MakeAnswer(s, e.r, k);
      assert rs[1..] == [];
    } else {
      forall i | 0 <= i < |rs|
        ensures !rs[i].body.Index?
      {
        if rs[i].body.Index? {
          NumbersOnlyMakers(s, e.r, i);
        }
      }
      IndexedNone(rs);
    }
  }

  /** Over any run the replies with a number are exactly the answers to requests for new objects. */
  lemma {:induction false} NumbersToMakers(s: Server, es: seq<Event>)
    ensures Indexed(RunReplies(s, es)) == AllMadeAnswers(s, es)
    decreases |es|
  {
    hide EventReplies, NextServer, MakesAny;
    if es != [] {
      EventIndexed(s, es[0]);
      NumbersToMakers(NextServer(s, es[0]), es[1..]);
      IndexedConcat(EventReplies(s, es[0]), RunReplies(NextServer(s, es[0]), es[1..]));
    }
  }
}
