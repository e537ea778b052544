/** Every core gets its answers in turn: over whole runs the replies to a core match its requests one
    by one, and only the request of a core that waits in a queue has none yet. */
module McpReplies {
  import opened Options
  import opened FutexWords
  import opened SyncObjects
  import opened Threads
  import opened MasterControl
  import opened McpInvariant
  import opened McpClients
  import opened McpRuns
  import opened McpOrder
  import opened McpAnswers

  /** The kind of answer that a request gets. */
  ghost predicate ReplyFits(r: Request, body: Body) {
    match r
    case MutexLock(_, _, _) => body.Code? && body.code == 0xDEADBEEF
    case MutexUnlock(_, _, _) => body.Code? && body.code == 0xBABECAFE
    case CondWait(_, _, _, _) => body.Code? && body.code == 0xDEADBEEF
    case CondSignal(_, _, _) => body.Code? && body.code == 0xBEEFCAFE
    case CondBroadcast(_, _, _) => body.Code? && body.code == 0xDEADCAFE
    case BarrierWait(_, _, _) => body.Code? && body.code == 0xCACACAFE
    case FutexWait(_, _, _) => body.Result?
    case FutexWake(_, _, _) => body.Result?
    case FutexWakeOp(_, _, _, _, _, _) => body.Result?
    case FutexCmpRequeue(_, _, _, _, _, _) => body.Result?
    case Spawn(_, _, _) => body.Spawned?
    case Start(_, _) => false
    case Exit(_, _, _) => body.Left?
    case Join(_, _, _) => body.Joined?
    case _ => body.Index?
  }

  /** The requests of a core that it waits for the answer of. */
  ghost function RequestsBy(es: seq<Event>, c: Core): seq<Request> {
    if es == [] then [] else Asked(es[0], c) + RequestsBy(es[1..], c)
  }

  ghost function Asked(e: Event, c: Core): seq<Request> {
    if e.Message? && !e.r.Start? && e.r.c == c then [e.r] else []
  }

  /** The replies to a core. */
  ghost function To(rs: seq<Reply>, c: Core): seq<Body> {
    if rs == [] then [] else (if rs[0].core == c then [rs[0].body] else []) + To(rs[1..], c)
  }

  lemma {:induction false} ToConcat(a: seq<Reply>, b: seq<Reply>, c: Core)
    ensures To(a + b, c) == To(a, c) + To(b, c)
  {
    if a == [] {
      assert a + b == b;
    } else {
      assert (a + b)[1..] == a[1..] + b;
      ToConcat(a[1..], b, c);
    }
  }

  /** Each answer fits its request; the last request has none yet if it is `open`. */
  ghost predicate Matched(asked: seq<Request>, told: seq<Body>, open: bool) {
    && |asked| == |told| + (if open then 1 else 0)
    && forall i :: 0 <= i < |told| ==> ReplyFits(asked[i], told[i])
  }

  lemma {:induction false} MatchedMore(r: Request, body: Body, asked: seq<Request>, told: seq<Body>, open: bool)
    requires Matched(asked, told, open) && ReplyFits(r, body)
    ensures Matched([r] + asked, [body] + told, open)
  {
    hide ReplyFits;
  }

  // ----- what a client waits for -----

  ghost predicate WantOf(want: Want, r: Request) {
    match r
    case MutexLock(_, _, _) => want.WantLock?
    case MutexUnlock(_, _, _) => want == WantCode(MUTEX_UNLOCK_RESPONSE)
    case CondWait(_, _, _, _) => want.WantCond?
    case CondSignal(_, _, _) => want == WantCode(COND_SIGNAL_RESPONSE)
    case CondBroadcast(_, _, _) => want == WantCode(COND_BROADCAST_RESPONSE)
    case BarrierWait(_, _, _) => want.WantBarrier?
    case FutexWait(_, _, _) => want.WantFutex?
    case FutexWake(_, _, _) => want.WantFutex?
    case FutexWakeOp(_, _, _, _, _, _) => want.WantFutex?
    case FutexCmpRequeue(_, _, _, _, _, _) => want.WantFutex?
    case Spawn(_, _, _) => want.WantSpawn?
    case Start(_, _) => false
    case Exit(_, _, _) => want.WantLeave?
    case Join(_, _, _) => want.WantJoin?
    case _ => want.WantIndex?
  }

  /** The client waits exactly while it has asked for `p`. */
  ghost predicate Awaits(x: Client, p: Option<Request>) {
    !x.Broken? && (x.Waiting? <==> p.Some?) && (x.Waiting? ==> WantOf(x.want, p.value))
  }

  lemma {:induction false} SendingAwaits(s: Server, r: Request, held: set<nat>)
    requires !r.Start?
    ensures Awaits(Sending(s, r, held), Some(r))
  {
  }

  lemma {:induction false} DeliverFits(x: Client, r: Request, body: Body, exited: set<int>)
    requires x.Waiting? && WantOf(x.want, r) && !Deliver(x, body, exited).Broken?
    ensures ReplyFits(r, body) && Awaits(Deliver(x, body, exited), None)
  {
  }

  lemma {:induction false} BrokenForGood(cl: seq<Client>, rs: seq<Reply>, exited: set<int>, c: Core)
    requires c < |cl| && cl[c].Broken?
    ensures DeliverAll(cl, rs, exited)[c].Broken?
    decreases |rs|
  {
    if rs != [] {
      hide Deliver;
      if rs[0].core >= |cl| {
        BrokenForGood(cl, rs[1..], exited, c);
      } else {
        BrokenGets(cl[rs[0].core], rs[0].body, exited);
        BrokenForGood(cl[rs[0].core := Deliver(cl[rs[0].core], rs[0].body, exited)], rs[1..], exited, c);
      }
    }
  }

  lemma {:induction false} BrokenGets(x: Client, body: Body, exited: set<int>)
    ensures !x.Waiting? ==> Deliver(x, body, exited).Broken?
  {
  }

  /** A client that is not broken has got no reply, or one that fits what it waits for. */
  lemma {:induction false} DeliveredFit(cl: seq<Client>, rs: seq<Reply>, exited: set<int>, c: Core, p: Option<Request>)
    requires c < |cl| && Awaits(cl[c], p) && !DeliverAll(cl, rs, exited)[c].Broken?
    ensures var x, told := DeliverAll(cl, rs, exited)[c], To(rs, c);
      || (told == [] && x == cl[c])
      || (|told| == 1 && p.Some? && ReplyFits(p.value, told[0]) && Awaits(x, None))
    decreases |rs|
  {
    hide Deliver, ReplyFits, WantOf;
    if rs != [] {
      var d, body := rs[0].core, rs[0].body;
      if d >= |cl| {
        DeliveredFit(cl, rs[1..], exited, c, p);
      } else {
        var cl1 := cl[d := Deliver(cl[d], body, exited)];
        if d != c {
          DeliveredFit(cl1, rs[1..], exited, c, p);
        } else {
          BrokenGets(cl[c], body, exited);
          if cl1[c].Broken? {
            BrokenForGood(cl1, rs[1..], exited, c);
          } else {
            DeliverFits(cl[c], p.value, body, exited);
            DeliveredFit(cl1, rs[1..], exited, c, None);
          }
        }
      }
    }
  }

  // ----- runs -----

  /** What the client waits for after it may have sent a request. */
  ghost function Pending(e: Event, c: Core, p: Option<Request>): Option<Request> {
    if Asked(e, c) == [] then p else Some(e.r)
  }

  lemma {:induction false} NextFits(y: System, e: Event, c: Core, p: Option<Request>)
    requires Enabled(y, e) && c < |y.clients| && Awaits(y.clients[c], p)
    ensures |Next(y, e).clients| == |y.clients| && (Asked(e, c) != [] ==> p == None)
    ensures !Next(y, e).clients[c].Broken? ==>
      var x, told, q := Next(y, e).clients[c], To(EventReplies(y.server, e), c), Pending(e, c, p);
      || (told == [] && Awaits(x, q))
      || (|told| == 1 && q.Some? && ReplyFits(q.value, told[0]) && Awaits(x, None))
  {
    hide Handle, Deliver, DeliverAll, ReplyFits, WantOf, Sending, Allowed;
    if e.Message? {
      var (t, rs) := Handle(y.server, e.r);
      if e.r.Start? {
        if !DeliverAll(y.clients, rs, t.exited)[c].Broken? {
          DeliveredFit(y.clients, rs, t.exited, c, p);
        }
      } else {
        SendingAwaits(y.server, e.r, y.clients[e.r.c].held);
        var cl := y.clients[e.r.c := Sending(y.server, e.r, y.clients[e.r.c].held)];
        if !DeliverAll(cl, rs, t.exited)[c].Broken? {
          DeliveredFit(cl, rs, t.exited, c, Pending(e, c, p));
        }
      }
    }
  }

  lemma {:induction false} RunBroken(y: System, es: seq<Event>, z: System, c: Core)
    requires Runs(y, es, z) && c < |y.clients| && y.clients[c].Broken?
    ensures c < |z.clients| && z.clients[c].Broken?
    decreases |es|
  {
    if es != [] {
      hide Handle, Accepted, Allowed, Sending, DeliverAll;
      var e := es[0];
      if e.Message? {
        var (t, rs) := Handle(y.server, e.r);
        var cl := if e.r.Start? then y.clients
          else y.clients[e.r.c := Sending(y.server, e.r, y.clients[e.r.c].held)];
        BrokenForGood(cl, rs, t.exited, c);
      }
      RunBroken(Next(y, e), es[1..], z, c);
    }
  }

  ghost function Before(p: Option<Request>): seq<Request> {
    if p.Some? then [p.value] else []
  }

  /** From any state in which the client waits for `p`. */
  lemma {:induction false} RunMatched(y: System, es: seq<Event>, z: System, c: Core, p: Option<Request>)
    requires Runs(y, es, z) && c < |y.clients| && Awaits(y.clients[c], p)
    ensures c < |z.clients|
    ensures !z.clients[c].Broken? ==>
      Matched(Before(p) + RequestsBy(es, c), To(RunReplies(y.server, es), c), z.clients[c].Waiting?)
    decreases |es|
  {
    hide Enabled, Accepted, Next, EventReplies, NextServer, WantOf, ReplyFits, Asked;
    if es == [] {
      assert Before(p) + [] == Before(p);
    } else {
      var e, y1 := es[0], Next(y, es[0]);
      NextFits(y, e, c, p);
      NextIs(y, e);
      if y1.clients[c].Broken? {
        RunBroken(y1, es[1..], z, c);
      } else {
        var told, q := To(EventReplies(y.server, e), c), Pending(e, c, p);
        var more := To(RunReplies(y1.server, es[1..]), c);
        ToConcat(EventReplies(y.server, e), RunReplies(y1.server, es[1..]), c);
        AskedOne(e, c, p);
        assert Before(p) + (Asked(e, c) + RequestsBy(es[1..], c)) == (Before(p) + Asked(e, c)) + RequestsBy(es[1..], c);
        RunMatched(y1, es[1..], z, c, if told == [] then q else None);
        if !z.clients[c].Broken? {
          OneMore(q, told, RequestsBy(es[1..], c), more, z.clients[c].Waiting?);
        }
      }
    }
  }

  /** The answers of one event before the others. */
  lemma {:induction false} OneMore(q: Option<Request>, told: seq<Body>, asked: seq<Request>, more: seq<Body>,
      open: bool)
    requires told == [] || (|told| == 1 && q.Some? && ReplyFits(q.value, told[0]))
    requires Matched(Before(if told == [] then q else None) + asked, more, open)
    ensures Matched(Before(q) + asked, told + more, open)
  {
    hide ReplyFits, Matched;
    if told == [] {
      assert told + more == more;
    } else {
      assert [] + asked == asked && told == [told[0]];
      MatchedMore(q.value, told[0], asked, more, open);
    }
  }

  lemma {:induction false} AskedOne(e: Event, c: Core, p: Option<Request>)
    requires Asked(e, c) != [] ==> p == None
    ensures Before(p) + Asked(e, c) == Before(Pending(e, c, p))
  {
  }

  lemma {:induction false} NextIs(y: System, e: Event)
    requires Enabled(y, e)
    ensures Next(y, e).server == NextServer(y.server, e)
  {
    hide Handle, DeliverAll, Sending;
  }

  /** In every run the replies to a core answer its requests in turn, each once and with the answer
      that fits; only a core that waits in a queue has asked once more than it has been told. */
  lemma {:induction false} AnsweredInTurn(y: System, es: seq<Event>, z: System, c: Core)
    requires Init(y) && Runs(y, es, z) && c < |z.clients|
    ensures Matched(RequestsBy(es, c), To(RunReplies(y.server, es), c), exists p :: c in Queue(z.server, p))
  {
    AlwaysAnswered(y, es, z, c);
    ReadyAtFirst(y, es, z);
    hide Init, Runs, Queue, Matched;
    RunMatched(y, es, z, c, None);
    assert [] + RequestsBy(es, c) == RequestsBy(es, c);
  }

  lemma {:induction false} ReadyAtFirst(y: System, es: seq<Event>, z: System)
    requires Init(y) && Runs(y, es, z)
    ensures |z.clients| == |y.clients| && forall c :: 0 <= c < |y.clients| ==> y.clients[c].Ready?
  {
    hide Handle, Allowed, Accepted, DeliverAll, InitServer;
    SameClients(y, es, z);
  }

  lemma {:induction false} SameClients(y: System, es: seq<Event>, z: System)
    requires Runs(y, es, z)
    ensures |z.clients| == |y.clients|
    decreases |es|
  {
    if es != [] {
      hide Handle, Allowed, Accepted, Sending, Deliver;
      SameClients(Next(y, es[0]), es[1..], z);
    }
  }

  // ----- what the answers carry -----

  /** The answer to an unlock, a signal or a broadcast comes last and has no time; before it come only
      grants, with the time of the request. */
  lemma {:induction false} AcksComeLast(s: Server, r: Request)
    requires Accepted(s, r) && (r.MutexUnlock? || r.CondSignal? || r.CondBroadcast?)
    ensures var rs := Handle(s, r).1;
      && rs != [] && rs[|rs| - 1].core == r.c && ReplyFits(r, rs[|rs| - 1].body) && rs[|rs| - 1].body.time == 0
      && forall i :: 0 <= i < |rs| - 1 ==> rs[i].body == Code(0xDEADBEEF, r.time)
  {
    hide LockMutex, UnlockMutex, Awaken, ResumeThread, Erased;
  }

  /** Whoever a futex call wakes gets the result 0; the caller's answer comes last. */
  lemma {:induction false} WokenGetZero(s: Server, r: Request)
    requires Accepted(s, r) && (r.FutexWake? || r.FutexWakeOp? || r.FutexCmpRequeue?)
    ensures var rs := Handle(s, r).1;
      && rs != [] && rs[|rs| - 1].core == r.c && rs[|rs| - 1].body.Result?
      && forall i :: 0 <= i < |rs| - 1 ==> rs[i].body == Result(0)
  {
    hide WakeUp, WakeIf, MoveWaiters, Word;
    if r.FutexWakeOp? {
      KnownExactly(r.op, Word(s, r.addr2));
    }
  }
}
