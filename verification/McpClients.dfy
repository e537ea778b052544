/** The clients of the master (common/system/sync_client.cc and the client halves of spawn, join
    and exit): each sends a request and blocks until the reply it expects has come. */
module McpClients {
  import opened Options
  import opened FutexWords
  import opened SyncObjects
  import opened Threads
  import opened MasterControl
  import opened McpInvariant
  import opened McpThreads

  /** What a blocked client waits for. */
  datatype Want =
    | WantLock(m: nat)
    | WantCond(v: nat, m: nat)
    | WantBarrier(b: nat)
    | WantCode(code: int)
    | WantIndex
    | WantFutex
    | WantSpawn
    | WantJoin(id: nat, issued: bool)
    | WantLeave

  /** `held` are the mutexes the client has been granted and not given back.  A client is broken
      by a reply that it does not wait for or that is not the one it expects. */
  datatype Client = Ready(held: set<nat>) | Waiting(want: Want, held: set<nat>) | Broken

  function Deliver(x: Client, body: Body, exited: set<int>): Client {
    if !x.Waiting? then Broken
    else
      match x.want
      case WantLock(m) => if body.Code? && body.code == MUTEX_LOCK_RESPONSE then Ready(x.held + {m}) else Broken
      case WantCond(_, m) => if body.Code? && body.code == COND_WAIT_RESPONSE then Ready(x.held + {m}) else Broken
      case WantBarrier(_) => if body.Code? && body.code == BARRIER_WAIT_RESPONSE then Ready(x.held) else Broken
      case WantCode(code) => if body.Code? && body.code == code then Ready(x.held) else Broken
      case WantIndex => if body.Index? then Ready(x.held) else Broken
      case WantFutex => if body.Result? then Ready(x.held) else Broken
      case WantSpawn => if body.Spawned? then Ready(x.held) else Broken
      case WantJoin(id, issued) => if body.Joined? && (issued ==> id in exited) then Ready(x.held) else Broken
      case WantLeave => if body.Left? then Ready(x.held) else Broken
  }

  function DeliverAll(cl: seq<Client>, rs: seq<Reply>, exited: set<int>): (r: seq<Client>)
    ensures |r| == |cl|
    decreases |rs|
  {
    if rs == [] then cl
    else if rs[0].core >= |cl| then DeliverAll(cl, rs[1..], exited)
    else DeliverAll(cl[rs[0].core := Deliver(cl[rs[0].core], rs[0].body, exited)], rs[1..], exited)
  }

  /** The client after it has sent its request. */
  function Sending(s: Server, r: Request, held: set<nat>): Client {
    match r
    case MutexLock(_, m, _) => Waiting(WantLock(m), held)
    case MutexUnlock(_, m, _) => Waiting(WantCode(MUTEX_UNLOCK_RESPONSE), held - {m})
    case CondWait(_, v, m, _) => Waiting(WantCond(v, m), held - {m})
    case CondSignal(_, _, _) => Waiting(WantCode(COND_SIGNAL_RESPONSE), held)
    case CondBroadcast(_, _, _) => Waiting(WantCode(COND_BROADCAST_RESPONSE), held)
    case BarrierWait(_, b, _) => Waiting(WantBarrier(b), held)
    case FutexWait(_, _, _) => Waiting(WantFutex, held)
    case FutexWake(_, _, _) => Waiting(WantFutex, held)
    case FutexWakeOp(_, _, _, _, _, _) => Waiting(WantFutex, held)
    case FutexCmpRequeue(_, _, _, _, _, _) => Waiting(WantFutex, held)
    case Spawn(_, _, _) => Waiting(WantSpawn, held)
    case Exit(_, _, _) => Waiting(WantLeave, held)
    case Join(_, _, id) => Waiting(WantJoin(id, 0 < id <= s.counter), held)
    case _ => Waiting(WantIndex, held)
  }

  // ----- how clients and server fit together -----

  ghost predicate Fits(s: Server, want: Want, p: Place) {
    match p
    case OnMutex(m) => want == WantLock(m) || (want.WantCond? && want.m == m)
    case OnCond(v) => want.WantCond? && want.v == v
    case OnBarrier(b) => want == WantBarrier(b)
    case OnFutex(_) => want == WantFutex
    case OnJoin(th) =>
      want.WantJoin? && (want.issued ==> 0 < want.id <= s.counter && want.id < |s.ids| && s.ids[want.id] == th)
  }

  /** No client is broken; the blocked ones are those whose thread is stalled, and `busy`, whose
      request is being handled; each waits for what its place will bring. */
  ghost predicate Blocked(s: Server, cl: seq<Client>, at: map<Core, Place>, busy: Option<Core>) {
    && |cl| == |s.tiles|
    && (forall c :: 0 <= c < |cl| ==> !cl[c].Broken?)
    && (forall c :: 0 <= c < |cl| ==> (cl[c].Waiting? <==> c in at || busy == Some(c)))
    && (forall c :: 0 <= c < |cl| && c in at ==> Fits(s, cl[c].want, at[c]))
  }

  ghost predicate Has(x: Client, m: nat) {
    !x.Broken? && m in x.held
  }

  ghost predicate OwnerIs(mutexes: seq<Mutex>, m: nat, c: Core) {
    m < |mutexes| && mutexes[m].owner == Some(c)
  }

  /** The recorded owners of the mutexes are the clients that hold them. */
  ghost predicate Owned(mutexes: seq<Mutex>, cl: seq<Client>) {
    forall c: nat, m: nat :: c < |cl| && !cl[c].Broken? ==> (Has(cl[c], m) <==> OwnerIs(mutexes, m, c))
  }

  /** The clients that wait on a condition gave up the mutex recorded for them. */
  ghost predicate Recorded(conds: seq<seq<CondWaiter>>, cl: seq<Client>) {
    forall v, i :: 0 <= v < |conds| && 0 <= i < |conds[v]| && conds[v][i].core < |cl| ==>
      cl[conds[v][i].core].Waiting? && cl[conds[v][i].core].want == WantCond(v, conds[v][i].mutex)
  }

  ghost predicate ClientsOk(s: Server, cl: seq<Client>, at: map<Core, Place>, busy: Option<Core>) {
    Blocked(s, cl, at, busy) && Owned(s.mutexes, cl) && Recorded(s.conds, cl)
  }

  ghost predicate SysOk(s: Server, cl: seq<Client>, at: map<Core, Place>, busy: Option<Core>) {
    Inv(s, at) && ClientsOk(s, cl, at, busy)
  }

  ghost predicate SameIds(s: Server, t: Server) {
    |t.tiles| == |s.tiles| && t.ids == s.ids && t.counter == s.counter
  }

  // ----- steps of who is blocked -----

  /** The client whose request is handled gets its reply. */
  lemma {:induction false} BlockedAnswer(s: Server, t: Server, cl: seq<Client>, at: map<Core, Place>, c: Core,
      x: Client)
    requires Blocked(s, cl, at, Some(c)) && SameIds(s, t) && c < |cl| && c !in at && x.Ready?
    ensures Blocked(t, cl[c := x], at, None)
  {
  }

  /** It goes into a queue instead. */
  lemma {:induction false} BlockedPark(s: Server, t: Server, cl: seq<Client>, at: map<Core, Place>, c: Core, p: Place)
    requires Blocked(s, cl, at, Some(c)) && SameIds(s, t) && c < |cl| && cl[c].Waiting? && Fits(t, cl[c].want, p)
    ensures Blocked(t, cl, at[c := p], None)
  {
  }

  /** A client in a queue gets its reply. */
  lemma {:induction false} BlockedFree(s: Server, t: Server, cl: seq<Client>, at: map<Core, Place>, busy: Option<Core>,
      d: Core, x: Client)
    requires Blocked(s, cl, at, busy) && SameIds(s, t) && d < |cl| && d in at && x.Ready? && busy != Some(d)
    ensures Blocked(t, cl[d := x], at - {d}, busy)
  {
  }

  /** A client goes from one queue to another. */
  lemma {:induction false} BlockedMove(s: Server, t: Server, cl: seq<Client>, at: map<Core, Place>, busy: Option<Core>,
      d: Core, p: Place)
    requires Blocked(s, cl, at, busy) && SameIds(s, t) && d < |cl| && d in at && Fits(t, cl[d].want, p)
    ensures Blocked(t, cl, at[d := p], busy)
  {
  }

  // ----- steps of who owns what -----

  lemma {:induction false} OwnedSame(mutexes: seq<Mutex>, cl: seq<Client>, c: Core, x: Client)
    requires Owned(mutexes, cl) && c < |cl| && !cl[c].Broken? && !x.Broken? && x.held == cl[c].held
    ensures Owned(mutexes, cl[c := x])
  {
  }

  lemma {:induction false} OwnedQueue(mutexes: seq<Mutex>, cl: seq<Client>, m: nat, x: Mutex)
    requires Owned(mutexes, cl) && m < |mutexes| && x.owner == mutexes[m].owner
    ensures Owned(mutexes[m := x], cl)
  {
    forall d: nat, k: nat | d < |cl| && !cl[d].Broken?
      ensures Has(cl[d], k) <==> OwnerIs(mutexes[m := x], k, d)
    {
      assert Has(cl[d], k) <==> OwnerIs(mutexes, k, d);
    }
  }

  lemma {:induction false} OwnedMore(mutexes: seq<Mutex>, cl: seq<Client>, m: nat, x: Mutex, c: Core, y: Client)
    requires Owned(mutexes, cl) && m < |mutexes| && c < |cl| && !cl[c].Broken? && !y.Broken?
    requires y.held == cl[c].held + {m}
    requires mutexes[m].owner.None? && x.owner == Some(c)
    ensures Owned(mutexes[m := x], cl[c := y])
  {
    var z, ms := cl[c := y], mutexes[m := x];
    forall d: nat, k: nat | d < |cl| && !z[d].Broken?
      ensures Has(z[d], k) <==> OwnerIs(ms, k, d)
    {
      assert Has(cl[d], k) || d == c || cl[d].Broken? || !OwnerIs(mutexes, k, d);
      assert Has(cl[c], k) <==> OwnerIs(mutexes, k, c);
    }
  }

  lemma {:induction false} OwnedLess(mutexes: seq<Mutex>, cl: seq<Client>, m: nat, x: Mutex, c: Core, y: Client)
    requires Owned(mutexes, cl) && m < |mutexes| && c < |cl| && !cl[c].Broken? && !y.Broken?
    requires y.held == cl[c].held - {m}
    requires mutexes[m].owner == Some(c) && x.owner.None?
    ensures Owned(mutexes[m := x], cl[c := y])
  {
    var z, ms := cl[c := y], mutexes[m := x];
    forall d: nat, k: nat | d < |cl| && !z[d].Broken?
      ensures Has(z[d], k) <==> OwnerIs(ms, k, d)
    {
      assert Has(cl[d], k) || d == c || cl[d].Broken? || !OwnerIs(mutexes, k, d);
      assert Has(cl[c], k) <==> OwnerIs(mutexes, k, c);
    }
  }

  /** Client `c` has given up mutex `m` but is still its recorded owner. */
  ghost predicate Dropping(mutexes: seq<Mutex>, cl: seq<Client>, c: Core, m: nat) {
    && c < |cl| && cl[c].Waiting? && m !in cl[c].held
    && Owned(mutexes, cl[c := Waiting(cl[c].want, cl[c].held + {m})])
  }

  /** The mutex passes to the first in its queue, if there is one. */
  lemma {:induction false} OwnedPass(mutexes: seq<Mutex>, cl: seq<Client>, m: nat, c: Core)
    requires Dropping(mutexes, cl, c, m) && m < |mutexes| && mutexes[m].owner == Some(c)
    ensures var x := Unlock(mutexes[m]);
      if x.owner.None? then Owned(mutexes[m := x], cl)
      else
        x.owner.value < |cl| && x.owner.value != c && !cl[x.owner.value].Broken? ==>
          Owned(mutexes[m := x], cl[x.owner.value := Ready(cl[x.owner.value].held + {m})])
  {
    hide Owned;
    var x := Unlock(mutexes[m]);
    var free := Mutex(None, x.waiting);
    var before := cl[c := Waiting(cl[c].want, cl[c].held + {m})];
    assert before[c := cl[c]] == cl;
    OwnedLess(mutexes, before, m, free, c, cl[c]);
    if x.owner.Some? && x.owner.value < |cl| && x.owner.value != c && !cl[x.owner.value].Broken? {
      var d := x.owner.value;
      OwnedMore(mutexes[m := free], cl, m, x, d, Ready(cl[d].held + {m}));
      assert mutexes[m := free][m := x] == mutexes[m := x];
    } else if x.owner.None? {
      assert x == free;
    }
  }

  // ----- steps of who waits on a condition -----

  ghost predicate OffConds(conds: seq<seq<CondWaiter>>, c: Core) {
    forall v, i :: 0 <= v < |conds| && 0 <= i < |conds[v]| ==> conds[v][i].core != c
  }

  lemma {:induction false} RecordedOther(conds: seq<seq<CondWaiter>>, cl: seq<Client>, c: Core, x: Client)
    requires Recorded(conds, cl) && c < |cl| && OffConds(conds, c)
    ensures Recorded(conds, cl[c := x])
  {
  }

  lemma {:induction false} RecordedMore(conds: seq<seq<CondWaiter>>, cl: seq<Client>, v: nat, w: CondWaiter)
    requires Recorded(conds, cl) && v < |conds| && w.core < |cl|
    requires cl[w.core].Waiting? && cl[w.core].want == WantCond(v, w.mutex)
    ensures Recorded(conds[v := conds[v] + [w]], cl)
  {
  }

  /** The first waiter leaves the list. */
  lemma {:induction false} RecordedLess(conds: seq<seq<CondWaiter>>, cl: seq<Client>, v: nat)
    requires v < |conds| && conds[v] != [] && Recorded(conds, cl)
    ensures Recorded(conds[v := conds[v][1..]], cl)
  {
    var rest: seq<seq<CondWaiter>> := conds[v := conds[v][1..]];
    forall u, i | 0 <= u < |rest| && 0 <= i < |rest[u]|
      ensures rest[u][i] == conds[u][if u == v then i + 1 else i]
    {
    }
  }

  // ----- replies -----

  lemma {:induction false} Deliver1(cl: seq<Client>, r: Reply, exited: set<int>)
    requires r.core < |cl|
    ensures DeliverAll(cl, [r], exited) == cl[r.core := Deliver(cl[r.core], r.body, exited)]
  {
  }

  /** A running core waits nowhere; a core that waits somewhere is a core. */
  lemma {:induction false} Whereabouts(s: Server, at: map<Core, Place>, c: Core)
    requires Inv(s, at)
    ensures Front(s, c) == Running ==> c < |s.tiles| && c !in at
    ensures c in at ==> c < |s.tiles| && Front(s, c) == Stalled
    ensures c !in at || !at[c].OnCond? ==> OffConds(s.conds, c)
  {
    hide Inv;
    ParkedOf(s, at);
    forall v, i | 0 <= v < |s.conds| && 0 <= i < |s.conds[v]|
      ensures s.conds[v][i].core in at && at[s.conds[v][i].core] == OnCond(v)
    {
      assert Cores(s.conds[v])[i] in Queue(s, OnCond(v));
    }
    hide Queue;
  }

  lemma {:induction false} LockFrame(s: Server, m: nat, c: Core)
    requires m < |s.mutexes|
    ensures var t := LockMutex(s, m, c).0;
      && t.mutexes == s.mutexes[m := Lock(s.mutexes[m], c)] && t.conds == s.conds && t.barriers == s.barriers
      && SameIds(s, t) && t.exited == s.exited
  {
    StallFrame(s, c);
  }

  /** A core locks a mutex and is granted it at once or waits for it. */
  lemma {:induction false} LockClients(s: Server, cl: seq<Client>, at: map<Core, Place>, c: Core, m: nat, time: nat)
    requires SysOk(s, cl, at, Some(c)) && Front(s, c) == Running && m < |s.mutexes| && c < |cl| && cl[c].Waiting?
    requires cl[c].want == WantLock(m)
    ensures var (t, rs) := DoLock(s, c, m, time);
      SysOk(t, DeliverAll(cl, rs, t.exited), if s.mutexes[m].owner.None? then at else at[c := OnMutex(m)], None)
  {
    Whereabouts(s, at, c);
    LockMutexOk(s, m, c, at);
    LockFrame(s, m, c);
    hide Inv, LockMutex, Front, Blocked, Owned, Recorded, OffConds;
    var (t, rs) := DoLock(s, c, m, time);
    if s.mutexes[m].owner.None? {
      var x := Ready(cl[c].held + {m});
      Deliver1(cl, Granted(c, time), t.exited);
      OwnedMore(s.mutexes, cl, m, Lock(s.mutexes[m], c), c, x);
      BlockedAnswer(s, t, cl, at, c, x);
      RecordedOther(s.conds, cl, c, x);
    } else {
      OwnedQueue(s.mutexes, cl, m, Lock(s.mutexes[m], c));
      BlockedPark(s, t, cl, at, c, OnMutex(m));
    }
  }

  /** The client whose request is handled is answered last. */
  lemma {:induction false} Acked(s: Server, cl: seq<Client>, at: map<Core, Place>, c: Core, body: Body)
    requires SysOk(s, cl, at, Some(c)) && c < |cl| && c !in at && cl[c].Waiting?
    requires Deliver(cl[c], body, s.exited) == Ready(cl[c].held)
    ensures SysOk(s, DeliverAll(cl, [Reply(c, body)], s.exited), at, None)
  {
    Whereabouts(s, at, c);
    hide Inv, Blocked, Owned, Recorded, OffConds;
    Deliver1(cl, Reply(c, body), s.exited);
    NotBroken(s, cl, at, Some(c));
    OwnedSame(s.mutexes, cl, c, Ready(cl[c].held));
    BlockedAnswer(s, s, cl, at, c, Ready(cl[c].held));
    RecordedOther(s.conds, cl, c, Ready(cl[c].held));
  }

  lemma {:induction false} NotBroken(s: Server, cl: seq<Client>, at: map<Core, Place>, busy: Option<Core>)
    requires Blocked(s, cl, at, busy)
    ensures |cl| == |s.tiles| && (forall c :: 0 <= c < |cl| ==> !cl[c].Broken?)
    ensures forall c :: 0 <= c < |cl| && c in at ==> cl[c].Waiting? && Fits(s, cl[c].want, at[c])
  {
  }

  lemma {:induction false} DeliverConcat(cl: seq<Client>, a: seq<Reply>, b: seq<Reply>, exited: set<int>)
    ensures DeliverAll(cl, a + b, exited) == DeliverAll(DeliverAll(cl, a, exited), b, exited)
    decreases |a|
  {
    if a == [] {
      assert a + b == b;
    } else {
      assert (a + b)[1..] == a[1..] + b;
      if a[0].core >= |cl| {
        DeliverConcat(cl, a[1..], b, exited);
      } else {
        DeliverConcat(cl[a[0].core := Deliver(cl[a[0].core], a[0].body, exited)], a[1..], b, exited);
      }
    }
  }

  // ----- mutexes -----

  lemma {:induction false} UnlockFrame(s: Server, m: nat, c: Core)
    requires m < |s.mutexes| && s.mutexes[m].owner == Some(c)
    ensures var (t, next) := UnlockMutex(s, m, c);
      && t.mutexes == s.mutexes[m := Unlock(s.mutexes[m])] && t.conds == s.conds && t.barriers == s.barriers
      && SameIds(s, t) && t.exited == s.exited
      && next == Unlock(s.mutexes[m]).owner
  {
    var x := Unlock(s.mutexes[m]);
    if x.owner.Some? {
      ResumeFrame(s, x.owner.value);
    }
  }

  /** The mutex that `c` gives up goes to the next in its queue, who is told so. */
  lemma {:induction false} PassOn(s: Server, cl: seq<Client>, at: map<Core, Place>, busy: Option<Core>, c: Core,
      m: nat, time: nat)
    requires Inv(s, at) && Blocked(s, cl, at, busy) && Recorded(s.conds, cl) && Dropping(s.mutexes, cl, c, m)
    requires m < |s.mutexes| && s.mutexes[m].owner == Some(c)
    requires (c in at ==> at[c].OnCond?) && (busy.Some? ==> busy.value !in at)
    ensures var (t, next) := UnlockMutex(s, m, c);
      SysOk(t, DeliverAll(cl, GrantedIf(next, time), t.exited), if next.Some? then at - {next.value} else at, busy)
  {
    hide Inv, UnlockMutex, Blocked, Owned, Recorded, OffConds, Front, Dropping;
    UnlockMutexOk(s, m, c, at);
    UnlockFrame(s, m, c);
    NotBroken(s, cl, at, busy);
    var (t, next) := UnlockMutex(s, m, c);
    OwnedPass(s.mutexes, cl, m, c);
    if next.Some? {
      var d := next.value;
      Whereabouts(s, at, d);
      var x := Ready(cl[d].held + {m});
      Deliver1(cl, Granted(d, time), t.exited);
      BlockedFree(s, t, cl, at, busy, d, x);
      RecordedOther(s.conds, cl, d, x);
    } else {
      BlockedSame(s, t, cl, at, busy);
    }
  }

  lemma {:induction false} BlockedSame(s: Server, t: Server, cl: seq<Client>, at: map<Core, Place>, busy: Option<Core>)
    requires Blocked(s, cl, at, busy) && SameIds(s, t)
    ensures Blocked(t, cl, at, busy)
  {
  }

  lemma {:induction false} UnlockClients(s: Server, cl: seq<Client>, at: map<Core, Place>, c: Core, m: nat, time: nat)
    requires Inv(s, at) && Blocked(s, cl, at, Some(c)) && Recorded(s.conds, cl) && Dropping(s.mutexes, cl, c, m)
    requires Front(s, c) == Running && m < |s.mutexes| && s.mutexes[m].owner == Some(c)
    requires cl[c].want == WantCode(MUTEX_UNLOCK_RESPONSE)
    ensures var (t, rs) := DoUnlock(s, c, m, time);
      var next := Unlock(s.mutexes[m]).owner;
      SysOk(t, DeliverAll(cl, rs, t.exited), if next.Some? then at - {next.value} else at, None)
  {
    hide Inv, Blocked, Recorded, UnlockMutex, Front;
    Whereabouts(s, at, c);
    UnlockMutexOk(s, m, c, at);
    UnlockFrame(s, m, c);
    PassOn(s, cl, at, Some(c), c, m, time);
    hide Dropping, SysOk;
    var (t, next) := UnlockMutex(s, m, c);
    DeliverConcat(cl, GrantedIf(next, time), [Reply(c, Code(MUTEX_UNLOCK_RESPONSE, 0))], t.exited);
    var cl1 := DeliverAll(cl, GrantedIf(next, time), t.exited);
    assert cl1[c] == cl[c] by {
      if next.Some? && next.value < |cl| {
        Deliver1(cl, Granted(next.value, time), t.exited);
      }
    }
    Acked(t, cl1, if next.Some? then at - {next.value} else at, c, Code(MUTEX_UNLOCK_RESPONSE, 0));
  }

  // ----- condition variables -----

  /** The state between the two halves of a wait: the core is on the list, the mutex still its. */
  lemma {:induction false} OnList(s: Server, at: map<Core, Place>, c: Core, v: nat, m: nat, time: nat)
    requires Inv(s, at) && Front(s, c) == Running && v < |s.conds| && m < |s.mutexes|
    ensures var t := SetCond(StallThread(s, c), v, s.conds[v] + [CondWaiter(c, m, time)]);
      && Inv(t, at[c := OnCond(v)]) && SameIds(s, t) && t.exited == s.exited && t.mutexes == s.mutexes
      && t.conds == s.conds[v := s.conds[v] + [CondWaiter(c, m, time)]]
  {
    hide ThreadsOk, Queue, Front, StallThread, Cores;
    StallFrame(s, c);
    StallSize(s, c);
    var w := CondWaiter(c, m, time);
    var t := SetCond(StallThread(s, c), v, s.conds[v] + [w]);
    CondQueues(s, t, v, s.conds[v] + [w]);
    CoresAppend(s.conds[v], w);
    CondQueue(s, v);
    BlockOk(s, t, OnCond(v), c, at);
  }

  lemma {:induction false} StallSize(s: Server, c: Core)
    ensures |StallThread(s, c).tiles| == |s.tiles|
  {
  }

  lemma {:induction false} CondWaitClients(s: Server, cl: seq<Client>, at: map<Core, Place>, c: Core, v: nat, m: nat,
      time: nat)
    requires Inv(s, at) && Blocked(s, cl, at, Some(c)) && Recorded(s.conds, cl) && Dropping(s.mutexes, cl, c, m)
    requires Front(s, c) == Running && m < |s.mutexes| && s.mutexes[m].owner == Some(c)
    requires v < |s.conds| && cl[c].want == WantCond(v, m)
    ensures var (t, rs) := DoCondWait(s, c, v, m, time);
      var next := Unlock(s.mutexes[m]).owner;
      var at1 := at[c := OnCond(v)];
      SysOk(t, DeliverAll(cl, rs, t.exited), if next.Some? then at1 - {next.value} else at1, None)
  {
    hide Inv, Blocked, Recorded, UnlockMutex, Front, StallThread, Owned;
    StallFrame(s, c);
    OnList(s, at, c, v, m, time);
    var w := CondWaiter(c, m, time);
    var t := SetCond(StallThread(s, c), v, s.conds[v] + [w]);
    RecordedMore(s.conds, cl, v, w);
    BlockedPark(s, t, cl, at, c, OnCond(v));
    UnlockFrame(t, m, c);
    PassOn(t, cl, at[c := OnCond(v)], None, c, m, time);
  }

  /** A waiter that was woken locks its mutex: it is granted it at once or waits for it. */
  lemma {:induction false} Relock(s: Server, t: Server, cl: seq<Client>, at: map<Core, Place>, busy: Option<Core>,
      v: nat, w: CondWaiter, time: nat)
    requires Inv(t, at - {w.core}) && Front(t, w.core) == Running && w.core in at && w.core < |cl|
    requires busy != Some(w.core)
    requires w.mutex < |t.mutexes| && t.mutexes == s.mutexes && SameIds(s, t)
    requires Blocked(s, cl, at, busy) && Owned(s.mutexes, cl) && Recorded(t.conds, cl)
    requires cl[w.core].Waiting? && cl[w.core].want == WantCond(v, w.mutex)
    ensures var (u, owns) := LockMutex(t, w.mutex, w.core);
      && (owns <==> s.mutexes[w.mutex].owner.None?) && u.exited == t.exited && u.conds == t.conds
      && |u.mutexes| == |t.mutexes| && SameIds(t, u)
      && SysOk(u, if owns then DeliverAll(cl, [Granted(w.core, time)], u.exited) else cl,
               if owns then at - {w.core} else at[w.core := OnMutex(w.mutex)], busy)
  {
    hide Inv, Blocked, Recorded, LockMutex, Front, Owned, OffConds;
    var d, m := w.core, w.mutex;
    LockMutexOk(t, m, d, at - {d});
    LockFrame(t, m, d);
    NotBroken(s, cl, at, busy);
    Whereabouts(t, at - {d}, d);
    var (u, owns) := LockMutex(t, m, d);
    if owns {
      var x := Ready(cl[d].held + {m});
      Deliver1(cl, Granted(d, time), u.exited);
      OwnedMore(s.mutexes, cl, m, Lock(s.mutexes[m], d), d, x);
      BlockedFree(s, u, cl, at, busy, d, x);
      RecordedOther(t.conds, cl, d, x);
    } else {
      assert (at - {d})[d := OnMutex(m)] == at[d := OnMutex(m)];
      OwnedQueue(s.mutexes, cl, m, Lock(s.mutexes[m], d));
      BlockedMove(s, u, cl, at, busy, d, OnMutex(m));
    }
  }

  /** The first waiter comes off the list. */
  lemma {:induction false} OffList(s: Server, at: map<Core, Place>, v: nat)
    requires Inv(s, at) && v < |s.conds| && s.conds[v] != []
    ensures var w := s.conds[v][0];
      var t := ResumeThread(SetCond(s, v, Erased(s.conds[v])), w.core);
      && w.core in at && at[w.core] == OnCond(v) && w.core < |s.tiles| && w.mutex < |s.mutexes|
      && Inv(t, at - {w.core}) && Front(t, w.core) == Running
      && t.mutexes == s.mutexes && t.conds == s.conds[v := Erased(s.conds[v])] && SameIds(s, t) && t.exited == s.exited
  {
    hide ThreadsOk, Queue, Front, ResumeThread, Cores;
    var ws, w := s.conds[v], s.conds[v][0];
    var s1 := SetCond(s, v, Erased(ws));
    var t := ResumeThread(s1, w.core);
    ResumeFrame(s1, w.core);
    ResumeSize(s1, w.core);
    ResumeSame(s, s1, w.core);
    CondQueue(s, v);
    CoresFirst(ws);
    CondQueues(s, t, v, Erased(ws));
    ErasedCores(ws);
    UnblockOk(s, t, OnCond(v), at);
    Unfold(s, at);
    FirstStalled(s, OnCond(v), at);
    Whereabouts(s, at, w.core);
  }

  lemma {:induction false} ResumeSize(s: Server, c: Core)
    ensures |ResumeThread(s, c).tiles| == |s.tiles|
  {
  }

  lemma {:induction false} FirstWants(conds: seq<seq<CondWaiter>>, cl: seq<Client>, v: nat)
    requires Recorded(conds, cl) && v < |conds| && conds[v] != [] && conds[v][0].core < |cl|
    ensures cl[conds[v][0].core].Waiting? && cl[conds[v][0].core].want == WantCond(v, conds[v][0].mutex)
    ensures Recorded(conds[v := conds[v][1..]], cl)
  {
    RecordedLess(conds, cl, v);
  }

  /** Erasing the first of the waiters that gave up one mutex. */
  lemma {:induction false} ErasedRecorded(conds: seq<seq<CondWaiter>>, cl: seq<Client>, v: nat)
    requires Recorded(conds, cl) && v < |conds| && conds[v] != [] && OneMutex(conds[v])
    ensures Recorded(conds[v := Erased(conds[v])], cl)
  {
    ErasedOneMutex(conds[v]);
    RecordedLess(conds, cl, v);
  }

  /** After an erasure the records of the other waiters are right only if all gave up one mutex. */
  lemma {:induction false} ErasedSpoils(conds: seq<seq<CondWaiter>>, cl: seq<Client>, cl': seq<Client>, v: nat)
    requires Recorded(conds, cl) && v < |conds| && conds[v] != [] && |cl'| == |cl|
    requires forall i :: 0 <= i < |conds[v]| ==> conds[v][i].core < |cl|
    requires forall i :: 0 < i < |conds[v]| ==> cl'[conds[v][i].core] == cl[conds[v][i].core]
    requires Recorded(conds[v := Erased(conds[v])], cl')
    ensures OneMutex(conds[v])
  {
    var ws := conds[v];
    var after := conds[v := Erased(ws)];
    forall i | 0 <= i < |ws|
      ensures ws[i].mutex == ws[0].mutex
    {
      SameAsFirst(conds, cl, cl', v, i);
    }
  }

  lemma {:induction false} SameAsFirst(conds: seq<seq<CondWaiter>>, cl: seq<Client>, cl': seq<Client>, v: nat, i: nat)
    requires Recorded(conds, cl) && v < |conds| && i < |conds[v]| && |cl'| == |cl|
    requires forall k :: 0 <= k < |conds[v]| ==> conds[v][k].core < |cl|
    requires forall k :: 0 < k < |conds[v]| ==> cl'[conds[v][k].core] == cl[conds[v][k].core]
    requires Recorded(conds[v := Erased(conds[v])], cl')
    ensures conds[v][i].mutex == conds[v][0].mutex
  {
    if i > 0 {
      SameAsFirst(conds, cl, cl', v, i - 1);
      var after := conds[v := Erased(conds[v])];
      assert after[v][i - 1] == CondWaiter(conds[v][i].core, conds[v][i - 1].mutex, conds[v][i].time);
      assert cl[conds[v][i].core].want == WantCond(v, conds[v][i].mutex);
    }
  }

  /** Erasing the first waiter keeps the records right exactly when all waiters gave up one mutex. */
  lemma {:induction false} EraseExactly(conds: seq<seq<CondWaiter>>, cl: seq<Client>, v: nat)
    requires Recorded(conds, cl) && v < |conds| && conds[v] != []
    requires forall i :: 0 <= i < |conds[v]| ==> conds[v][i].core < |cl|
    ensures Recorded(conds[v := Erased(conds[v])], cl) <==> OneMutex(conds[v])
  {
    hide Recorded, OneMutex, Erased;
    if OneMutex(conds[v]) {
      ErasedRecorded(conds, cl, v);
    }
    if Recorded(conds[v := Erased(conds[v])], cl) {
      ErasedSpoils(conds, cl, cl, v);
    }
  }

  /** A signal, when the records that it leaves are right. */
  lemma {:induction false} SignalServed(s: Server, cl: seq<Client>, at: map<Core, Place>, c: Core, v: nat, time: nat)
    requires Inv(s, at) && Blocked(s, cl, at, Some(c)) && Owned(s.mutexes, cl) && c < |cl| && c !in at
    requires v < |s.conds| && s.conds[v] != [] && Recorded(s.conds[v := Erased(s.conds[v])], cl)
    requires cl[c].Waiting? && cl[c].want == WantCode(COND_SIGNAL_RESPONSE)
    requires var w := s.conds[v][0]; w.core < |cl| && cl[w.core].Waiting? && cl[w.core].want == WantCond(v, w.mutex)
    ensures var (t, rs) := DoSignal(s, c, v, time);
      var w := s.conds[v][0];
      && w.mutex < |s.mutexes|
      && SysOk(t, DeliverAll(cl, rs, t.exited),
               if s.mutexes[w.mutex].owner.None? then at - {w.core} else at[w.core := OnMutex(w.mutex)], None)
  {
    hide Inv, Blocked, Recorded, LockMutex, Front, Owned, ResumeThread, Erased;
    var w := s.conds[v][0];
    var s1 := ResumeThread(SetCond(s, v, Erased(s.conds[v])), w.core);
    OffList(s, at, v);
    Relock(s, s1, cl, at, Some(c), v, w, time);
    var (t, owns) := LockMutex(s1, w.mutex, w.core);
    var cl1 := if owns then DeliverAll(cl, [Granted(w.core, time)], t.exited) else cl;
    Deliver1(cl, Granted(w.core, time), t.exited);
    var ack := Reply(c, Code(COND_SIGNAL_RESPONSE, 0));
    DeliverConcat(cl, if owns then [Granted(w.core, time)] else [], [ack], t.exited);
    Acked(t, cl1, if owns then at - {w.core} else at[w.core := OnMutex(w.mutex)], c, ack.body);
  }

  lemma {:induction false} SignalClients(s: Server, cl: seq<Client>, at: map<Core, Place>, c: Core, v: nat, time: nat)
    requires SysOk(s, cl, at, Some(c)) && c < |cl| && c !in at && v < |s.conds| && s.conds[v] != []
    requires cl[c].Waiting? && cl[c].want == WantCode(COND_SIGNAL_RESPONSE) && OneMutex(s.conds[v])
    ensures var (t, rs) := DoSignal(s, c, v, time);
      var w := s.conds[v][0];
      && w.mutex < |s.mutexes|
      && SysOk(t, DeliverAll(cl, rs, t.exited),
               if s.mutexes[w.mutex].owner.None? then at - {w.core} else at[w.core := OnMutex(w.mutex)], None)
  {
    hide Inv, Blocked, Recorded, Owned, Erased, OneMutex, DoSignal;
    FirstOnList(s, at, v);
    NotBroken(s, cl, at, Some(c));
    FirstWants(s.conds, cl, v);
    ErasedRecorded(s.conds, cl, v);
    SignalServed(s, cl, at, c, v, time);
  }

  lemma {:induction false} GrantedFirst(cs: seq<Core>, c: Core, time: nat)
    ensures GrantedAll([c] + cs, time) == [Granted(c, time)] + GrantedAll(cs, time)
    ensures GrantedAll([], time) == []
  {
  }

  /** A broadcast wakes the waiters one by one; those it grants a mutex are told so afterwards. */
  lemma {:induction false} AwakenClients(s: Server, cl: seq<Client>, at: map<Core, Place>, c: Core, v: nat,
      ws: seq<CondWaiter>, time: nat)
    returns (at': map<Core, Place>)
    requires v < |s.conds| && s.conds[v] == [] && SysOk(SetCond(s, v, ws), cl, at, Some(c)) && c < |cl| && c !in at
    ensures var (t, woken) := Awaken(s, ws);
      && t.exited == s.exited && SysOk(t, DeliverAll(cl, GrantedAll(woken, time), s.exited), at', Some(c))
      && c !in at' && DeliverAll(cl, GrantedAll(woken, time), s.exited)[c] == cl[c]
    decreases |ws|
  {
    hide Inv, Blocked, Recorded, LockMutex, Front, Owned, ResumeThread, GrantedAll;
    if ws == [] {
      at' := at;
      assert SetCond(s, v, ws) == s;
      GrantedFirst([], 0, time);
    } else {
      var u, w := SetCond(s, v, ws), ws[0];
      var t := ResumeThread(s, w.core);
      AwakenFirst(s, v, ws, at);
      ResumeFrame(s, w.core);
      ResumeSize(s, w.core);
      var t1 := SetCond(t, v, ws[1..]);
      assert u.conds[v] == ws;
      FirstOnList(u, at, v);
      NotBroken(u, cl, at, Some(c));
      FirstWants(u.conds, cl, v);
      assert t1.conds == u.conds[v := ws[1..]];
      Relock(u, t1, cl, at, Some(c), v, w, time);
      LockKeepsConds(t, v, ws[1..], w.mutex, w.core);
      var (t2, owns) := LockMutex(t, w.mutex, w.core);
      var cl1 := if owns then DeliverAll(cl, [Granted(w.core, time)], t.exited) else cl;
      Deliver1(cl, Granted(w.core, time), t.exited);
      at' := AwakenClients(t2, cl1,
        if owns then at - {w.core} else at[w.core := OnMutex(w.mutex)], c, v, ws[1..], time);
      var rest := Awaken(t2, ws[1..]).1;
      if owns {
        GrantedFirst(rest, w.core, time);
        DeliverConcat(cl, [Granted(w.core, time)], GrantedAll(rest, time), s.exited);
      } else {
        assert [] + rest == rest;
      }
    }
  }

  lemma {:induction false} FirstOnList(s: Server, at: map<Core, Place>, v: nat)
    requires Inv(s, at) && v < |s.conds| && s.conds[v] != []
    ensures s.conds[v][0].core in at && s.conds[v][0].core < |s.tiles|
  {
    hide Front;
    CondQueue(s, v);
    CoresFirst(s.conds[v]);
    Unfold(s, at);
    FirstStalled(s, OnCond(v), at);
    Whereabouts(s, at, s.conds[v][0].core);
  }

  lemma {:induction false} BroadcastClients(s: Server, cl: seq<Client>, at: map<Core, Place>, c: Core, v: nat,
      time: nat)
    returns (at': map<Core, Place>)
    requires SysOk(s, cl, at, Some(c)) && c < |cl| && c !in at && v < |s.conds|
    requires cl[c].Waiting? && cl[c].want == WantCode(COND_BROADCAST_RESPONSE)
    ensures var (t, rs) := DoBroadcast(s, c, v, time); SysOk(t, DeliverAll(cl, rs, t.exited), at', None)
  {
    hide Awaken, SysOk, GrantedAll;
    var s1 := SetCond(s, v, []);
    assert SetCond(s1, v, s.conds[v]) == s;
    at' := AwakenClients(s1, cl, at, c, v, s.conds[v], time);
    var (t, woken) := Awaken(s1, s.conds[v]);
    DeliverConcat(cl, GrantedAll(woken, time), [Reply(c, Code(COND_BROADCAST_RESPONSE, 0))], s.exited);
    Acked(t, DeliverAll(cl, GrantedAll(woken, time), s.exited), at', c, Code(COND_BROADCAST_RESPONSE, 0));
  }

  /** The waiters recorded with the mutex `m`. */
  ghost function CoresFor(ws: seq<CondWaiter>, m: nat): seq<Core> {
    if ws == [] then [] else (if ws[0].mutex == m then [ws[0].core] else []) + CoresFor(ws[1..], m)
  }

  /** A broadcast puts at the end of each mutex's line the waiters recorded with it, in their order. */
  lemma {:induction false} BroadcastInOrder(s: Server, ws: seq<CondWaiter>, m: nat)
    requires m < |s.mutexes| && MutexOk(s.mutexes[m]) && forall i :: 0 <= i < |ws| ==> ws[i].mutex < |s.mutexes|
    ensures var t := Awaken(s, ws).0;
      && |t.mutexes| == |s.mutexes| && MutexOk(t.mutexes[m])
      && Claimants(t.mutexes[m]) == Claimants(s.mutexes[m]) + CoresFor(ws, m)
    decreases |ws|
  {
    hide ResumeThread, LockMutex, Claimants, MutexOk;
    if ws != [] {
      var c, k := ws[0].core, ws[0].mutex;
      var s1 := ResumeThread(s, c);
      ResumeFrame(s, c);
      LockFrame(s1, k, c);
      if k == m {
        ClaimsMove(s.mutexes[m], c);
      }
      BroadcastInOrder(LockMutex(s1, k, c).0, ws[1..], m);
    }
  }

  lemma {:induction false} LockOwns(s: Server, m: nat, c: Core)
    requires m < |s.mutexes|
    ensures LockMutex(s, m, c).1 <==> s.mutexes[m].owner.None?
    ensures Lock(s.mutexes[m], c).owner.Some?
  {
  }

  /** Whoever is granted a mutex is told the time of the request that made it owner. */
  lemma {:induction false} GrantsCarryTime(s: Server, r: Request, i: nat)
    requires i < |Handle(s, r).1|
    requires Handle(s, r).1[i].body.Code? && Handle(s, r).1[i].body.code == MUTEX_LOCK_RESPONSE
    ensures r.MutexLock? || r.MutexUnlock? || r.CondWait? || r.CondSignal? || r.CondBroadcast?
    ensures Handle(s, r).1[i].body.time == r.time
  {
    hide LockMutex, UnlockMutex, Awaken, StallThread, ResumeThread, ResumeAll, WakeUp, WakeIf, MoveWaiters, Enqueue;
    hide StallSlot, ScheduleThread, NewThreadId, PickSlot, WakeUpWaiter, NextInLine, NewValue, Compared;
    if r.Exit? || r.Join? {
      ThreadReplies(s, r, i);
    }
  }

  lemma {:induction false} ThreadReplies(s: Server, r: Request, i: nat)
    requires (r.Exit? || r.Join?) && i < |Handle(s, r).1|
    ensures !Handle(s, r).1[i].body.Code?
  {
    hide StallThread, Finish, ResumeSlot, StartNext, FirstWith;
  }

  // ----- barriers and futexes -----

  function Replies(cs: seq<Core>, body: Body): seq<Reply> {
    seq(|cs|, i requires 0 <= i < |cs| => Reply(cs[i], body))
  }

  /** The same reply to several cores. */
  lemma {:induction false} DeliverSame(cl: seq<Client>, cs: seq<Core>, body: Body, exited: set<int>)
    requires NoRepeats(cs) && forall c :: c in cs ==> c < |cl|
    ensures var r := DeliverAll(cl, Replies(cs, body), exited);
      forall d :: 0 <= d < |cl| ==> r[d] == if d in cs then Deliver(cl[d], body, exited) else cl[d]
    decreases |cs|
  {
    if cs != [] {
      TailWithout(cs);
      assert Replies(cs, body)[1..] == Replies(cs[1..], body);
      assert cs[0] in cs;
      DeliverSame(cl[cs[0] := Deliver(cl[cs[0]], body, exited)], cs[1..], body, exited);
    }
  }

  /** Clients that hold the same mutexes as before. */
  ghost predicate SameHeld(cl: seq<Client>, cl': seq<Client>) {
    |cl'| == |cl| && forall c :: 0 <= c < |cl| ==> !cl[c].Broken? && !cl'[c].Broken? && cl'[c].held == cl[c].held
  }

  lemma {:induction false} OwnedHeld(mutexes: seq<Mutex>, cl: seq<Client>, cl': seq<Client>)
    requires Owned(mutexes, cl) && SameHeld(cl, cl')
    ensures Owned(mutexes, cl')
  {
    forall d: nat, k: nat | d < |cl'| && !cl'[d].Broken?
      ensures Has(cl'[d], k) <==> OwnerIs(mutexes, k, d)
    {
      assert Has(cl[d], k) <==> OwnerIs(mutexes, k, d);
    }
  }

  ghost predicate Freed(cl: seq<Client>, cl': seq<Client>, cs: seq<Core>) {
    |cl'| == |cl| && forall d :: 0 <= d < |cl| ==>
      !cl[d].Broken? && cl'[d] == if d in cs then Ready(cl[d].held) else cl[d]
  }

  lemma {:induction false} BlockedSeveral(s: Server, t: Server, cl: seq<Client>, cl': seq<Client>,
      at: map<Core, Place>, busy: Option<Core>, cs: seq<Core>)
    requires Blocked(s, cl, at, busy) && SameIds(s, t) && Freed(cl, cl', cs)
    requires forall c :: c in cs ==> c in at && busy != Some(c)
    ensures Blocked(t, cl', at - (set c | c in cs), busy)
  {
  }

  lemma {:induction false} RecordedSeveral(conds: seq<seq<CondWaiter>>, cl: seq<Client>, cl': seq<Client>,
      cs: seq<Core>)
    requires Recorded(conds, cl) && Freed(cl, cl', cs) && forall c :: c in cs ==> OffConds(conds, c)
    ensures Recorded(conds, cl')
  {
    forall v, i | 0 <= v < |conds| && 0 <= i < |conds[v]|
      ensures conds[v][i].core !in cs
    {
      assert conds[v][i].core in cs ==> OffConds(conds, conds[v][i].core);
    }
  }

  /** The cores `cs` wait elsewhere than on a condition, and the reply is the one they expect. */
  ghost predicate Expect(s: Server, cl: seq<Client>, at: map<Core, Place>, busy: Option<Core>,
      cs: seq<Core>, body: Body, exited: set<int>) {
    && NoRepeats(cs)
    && forall c :: c in cs ==>
         && c in at && busy != Some(c) && !at[c].OnCond?
         && (c < |cl| && cl[c].Waiting? && Fits(s, cl[c].want, at[c]) ==>
             Deliver(cl[c], body, exited) == Ready(cl[c].held))
  }

  lemma {:induction false} ExpectFreed(s: Server, cl: seq<Client>, at: map<Core, Place>, busy: Option<Core>,
      cs: seq<Core>, body: Body, exited: set<int>)
    requires Inv(s, at) && Blocked(s, cl, at, busy) && Expect(s, cl, at, busy, cs, body, exited)
    ensures Freed(cl, DeliverAll(cl, Replies(cs, body), exited), cs)
    ensures forall c :: c in cs ==> OffConds(s.conds, c) && c in at && busy != Some(c)
  {
    hide Inv, Blocked, Deliver, NoRepeats, Fits, OffConds, DeliverAll;
    NotBroken(s, cl, at, busy);
    forall c | c in cs
      ensures c < |cl| && OffConds(s.conds, c)
    {
      Whereabouts(s, at, c);
    }
    DeliverSame(cl, cs, body, exited);
  }

  /** Several cores are woken and told so. */
  lemma {:induction false} FreeSeveral(s: Server, t: Server, cl: seq<Client>, at: map<Core, Place>, busy: Option<Core>,
      cs: seq<Core>, body: Body)
    requires Inv(s, at) && ClientsOk(s, cl, at, busy) && SameIds(s, t)
    requires t.mutexes == s.mutexes && t.conds == s.conds && Expect(s, cl, at, busy, cs, body, t.exited)
    ensures var cl' := DeliverAll(cl, Replies(cs, body), t.exited);
      ClientsOk(t, cl', at - (set c | c in cs), busy) && Freed(cl, cl', cs)
  {
    hide Inv, Blocked, Owned, Recorded, Expect, DeliverAll, OffConds;
    var cl' := DeliverAll(cl, Replies(cs, body), t.exited);
    ExpectFreed(s, cl, at, busy, cs, body, t.exited);
    OwnedHeld(s.mutexes, cl, cl');
    hide Freed;
    BlockedSeveral(s, t, cl, cl', at, busy, cs);
    RecordedSeveral(s.conds, cl, cl', cs);
  }

  /** A full barrier: the others are freed, then the one that came last. */
  lemma {:induction false} BarrierExpects(s: Server, cl: seq<Client>, at: map<Core, Place>, c: Core, b: nat, time: nat,
      exited: set<int>)
    requires Inv(s, at) && b < |s.barriers| && c !in at
    ensures Expect(s, cl, at, Some(c), s.barriers[b].waiting, Code(BARRIER_WAIT_RESPONSE, time), exited)
  {
    hide Inv, Queue, NoRepeats, Front;
    ParkedOf(s, at);
    BarrierQueue(s, b);
    assert NoRepeats(Queue(s, OnBarrier(b)));
  }

  lemma {:induction false} BarrierWaitClients(s: Server, cl: seq<Client>, at: map<Core, Place>, c: Core, b: nat,
      time: nat)
    requires SysOk(s, cl, at, Some(c)) && Front(s, c) == Running && c < |cl| && cl[c].Waiting?
    requires cl[c].want == WantBarrier(b)
    requires b < |s.barriers| && s.barriers[b].count >= 1
    ensures var (t, rs) := DoBarrierWait(s, c, b, time);
      var (x, woken) := Arrive(s.barriers[b], c, time);
      SysOk(t, DeliverAll(cl, rs, t.exited), at[c := OnBarrier(b)] - (set d | d in woken), None)
  {
    hide Inv, Front, Blocked, Owned, Recorded, ResumeAll, StallThread, DeliverAll, Expect, Deliver;
    var (t, rs) := DoBarrierWait(s, c, b, time);
    var (x, woken) := Arrive(s.barriers[b], c, time);
    Whereabouts(s, at, c);
    BarrierWaitOk(s, c, b, time, at);
    BarrierFrame(s, c, b, time);
    var body := Code(BARRIER_WAIT_RESPONSE, x.maxTime);
    if woken == [] {
      BlockedPark(s, t, cl, at, c, OnBarrier(b));
      DeliverNone(cl, t.exited);
      assert at[c := OnBarrier(b)] - (set d | d in woken) == at[c := OnBarrier(b)];
    } else {
      var others := s.barriers[b].waiting;
      BarrierExpects(s, cl, at, c, b, x.maxTime, t.exited);
      FreeSeveral(s, t, cl, at, Some(c), others, body);
      assert at[c := OnBarrier(b)] - (set d | d in woken) == at - (set d | d in others);
      assert rs == Replies(others, body) + [Reply(c, body)];
      DeliverConcat(cl, Replies(others, body), [Reply(c, body)], t.exited);
      var cl1 := DeliverAll(cl, Replies(others, body), t.exited);
      assert c !in others by { BarrierOthers(s, at, c, b); }
      assert Deliver(cl1[c], body, t.exited) == Ready(cl1[c].held) by { DeliverBarrier(cl[c], b, x.maxTime, t.exited); }
      Acked(t, cl1, at - (set d | d in others), c, body);
    }
  }

  /** The last arrival of a batch releases all of it, in order, with the batch's latest time. */
  lemma {:induction false} BarrierReplies(s: Server, b: nat, batch: seq<Arrival>, a: Arrival)
    requires b < |s.barriers| && HeldUp(s.barriers[b], batch)
    ensures var all := batch + [a];
      DoBarrierWait(s, a.core, b, a.time).1 ==
        if |all| < s.barriers[b].count then []
        else Replies(ArrivalCores(all), Code(BARRIER_WAIT_RESPONSE, Latest(all)))
  {
    hide StallThread, ResumeAll;
    var all := batch + [a];
    assert all[..|all| - 1] == batch;
    assert ArrivalCores(all) == s.barriers[b].waiting + [a.core];
  }

  lemma {:induction false} BarrierOthers(s: Server, at: map<Core, Place>, c: Core, b: nat)
    requires Inv(s, at) && c !in at && b < |s.barriers|
    ensures c !in s.barriers[b].waiting
  {
    hide Inv, Queue, NoRepeats, Front;
    ParkedOf(s, at);
    BarrierQueue(s, b);
  }

  lemma {:induction false} DeliverBarrier(x: Client, b: nat, time: nat, exited: set<int>)
    requires x.Waiting? && x.want == WantBarrier(b)
    ensures Deliver(x, Code(BARRIER_WAIT_RESPONSE, time), exited) == Ready(x.held)
  {
  }

  lemma {:induction false} DeliverNone(cl: seq<Client>, exited: set<int>)
    ensures DeliverAll(cl, [], exited) == cl
  {
  }

  lemma {:induction false} ResumeAllFrame(s: Server, cs: seq<Core>)
    ensures var t := ResumeAll(s, cs); s == t.(tiles := s.tiles, aborted := s.aborted) && |t.tiles| == |s.tiles|
    decreases |cs|
  {
    if cs != [] {
      ResumeFrame(s, cs[0]);
      ResumeSize(s, cs[0]);
      ResumeAllFrame(ResumeThread(s, cs[0]), cs[1..]);
    }
  }

  lemma {:induction false} BarrierFrame(s: Server, c: Core, b: nat, time: nat)
    requires b < |s.barriers|
    ensures var t := DoBarrierWait(s, c, b, time).0;
      && SameIds(s, t) && t.mutexes == s.mutexes && t.conds == s.conds && t.exited == s.exited
      && (|s.barriers[b].waiting| < s.barriers[b].count ==>
            t.barriers == s.barriers[b := Arrive(s.barriers[b], c, time).0])
  {
    hide StallThread, ResumeAll;
    StallFrame(s, c);
    StallSize(s, c);
    var (x, woken) := Arrive(s.barriers[b], c, time);
    ResumeAllFrame(StallThread(s, c).(barriers := s.barriers[b := x]), woken);
  }

  // ----- futexes -----

  /** A change that concerns neither clients nor mutexes nor conditions. */
  lemma {:induction false} Untouched(s: Server, t: Server, cl: seq<Client>, at: map<Core, Place>, busy: Option<Core>)
    requires ClientsOk(s, cl, at, busy) && SameIds(s, t) && t.mutexes == s.mutexes && t.conds == s.conds
    ensures ClientsOk(t, cl, at, busy)
  {
    hide Owned, Recorded;
    BlockedSame(s, t, cl, at, busy);
  }

  ghost predicate FutexOnly(s: Server, t: Server) {
    SameIds(s, t) && t.mutexes == s.mutexes && t.conds == s.conds && t.barriers == s.barriers
    && t.exited == s.exited && t.memory == s.memory
  }

  lemma {:induction false} EnqueueFrame(s: Server, a: int, c: Core)
    ensures FutexOnly(s, Enqueue(s, a, c)) && Enqueue(s, a, c).futexes == s.futexes[a := QueueOf(s.futexes, a) + [c]]
  {
    hide StallThread;
    StallFrame(s, c);
    StallSize(s, c);
  }

  lemma {:induction false} DequeueFrame(s: Server, a: int)
    requires QueueOf(s.futexes, a) != []
    ensures FutexOnly(s, Dequeue(s, a)) && Dequeue(s, a).futexes == s.futexes[a := QueueOf(s.futexes, a)[1..]]
  {
    hide ResumeThread;
    var q := QueueOf(s.futexes, a);
    ResumeFrame(s.(futexes := s.futexes[a := q[1..]]), q[0]);
    ResumeSize(s.(futexes := s.futexes[a := q[1..]]), q[0]);
  }

  lemma {:induction false} WakeStep(f: Futexes, a: int, n: int)
    requires a in f
    ensures n <= 0 || f[a] == [] ==> Wake(f, a, n) == (f, [])
    ensures n > 0 && f[a] != [] ==>
      var (g, woken) := Wake(f[a := f[a][1..]], a, n - 1); Wake(f, a, n) == (g, [f[a][0]] + woken)
  {
    var q := f[a];
    if n > 0 && q != [] {
      var k := Taken(n - 1, |q| - 1);
      assert q[1..][k..] == q[k + 1..] && [q[0]] + q[1..][..k] == q[..k + 1];
      assert f[a := q[1..]][a := q[k + 1..]] == f[a := q[k + 1..]];
    } else {
      assert q[0..] == q && f[a := q] == f;
    }
  }

  /** Waking one by one is waking the first ones of the queue. */
  lemma {:induction false} WakeUpIsWake(s: Server, a: int, n: int)
    requires a in s.futexes
    ensures var (t, woken) := WakeUp(s, a, n); (t.futexes, woken) == Wake(s.futexes, a, n) && FutexOnly(s, t)
    decreases if n > 0 then n else 0
  {
    hide Dequeue, Wake;
    WakeStep(s.futexes, a, n);
    if n > 0 && s.futexes[a] != [] {
      DequeueFrame(s, a);
      WakeUpIsWake(Dequeue(s, a), a, n - 1);
    }
  }

  /** Moving one by one is the requeueing of the futex queues. */
  lemma {:induction false} MoveIsRequeue(s: Server, a: int, b: int, n: int)
    ensures var (t, moved) := MoveWaiters(s, a, b, n);
      (t.futexes, moved) == Requeue(s.futexes, a, b, n) && FutexOnly(s, t)
    decreases if n > 0 then n else 0
  {
    hide Dequeue, Enqueue;
    var q := QueueOf(s.futexes, a);
    if n > 0 && q != [] {
      DequeueFrame(s, a);
      EnqueueFrame(Dequeue(s, a), b, q[0]);
      MoveIsRequeue(Enqueue(Dequeue(s, a), b, q[0]), a, b, n - 1);
    }
  }

  lemma {:induction false} QueuesAfterTouch(f: Futexes, a: int)
    ensures forall x :: QueueOf(f[a := QueueOf(f, a)], x) == QueueOf(f, x)
  {
  }

  /** Compare-and-requeue is refused with EWOULDBLOCK, and changes nothing, exactly when the word is
      another than expected.  Otherwise it wakes the first waiters and moves the next ones behind those
      of the second futex in order, or turns the queue if that is the same one; it leaves all others
      where they are, and returns how many it woke and moved. */
  lemma {:induction false} CmpRequeueConserves(s: Server, c: Core, a: int, n: int, n2: int, b: int, val: Int32)
    ensures var (t, rs) := DoCmpRequeue(s, c, a, n, n2, b, val);
      && t.memory == s.memory
      && if val == Word(s, a) then Requeued(s, t, rs, c, a, n, n2, b) else t == s && rs == [Reply(c, Result(-11))]
  {
    if val == Word(s, a) {
      hide Requeued;
      Requeues(s, c, a, n, n2, b, val);
      MoveIsRequeue(Touch(WakeUp(Touch(s, a), a, n).0, b), a, b, n2);
      WakeUpIsWake(Touch(s, a), a, n);
    }
  }

  ghost predicate Requeued(s: Server, t: Server, rs: seq<Reply>, c: Core, a: int, n: int, n2: int, b: int) {
    var q := QueueOf(s.futexes, a);
    var k := Taken(n, |q|);
    var m := if a != b then Taken(n2, |q| - k) else if n2 <= 0 || k == |q| then 0 else n2;
    && rs == WokenReplies(q[..k]) + [Reply(c, Result(k + m))]
    && (a != b ==>
        QueueOf(t.futexes, a) == q[k + m..] && QueueOf(t.futexes, b) == QueueOf(s.futexes, b) + q[k..k + m])
    && (a == b ==> QueueOf(t.futexes, a) == Turned(q[k..], n2))
    && forall x :: x != a && x != b ==> QueueOf(t.futexes, x) == QueueOf(s.futexes, x)
  }

  lemma {:induction false} Requeues(s: Server, c: Core, a: int, n: int, n2: int, b: int, val: Int32)
    requires val == Word(s, a)
    ensures var (t, rs) := DoCmpRequeue(s, c, a, n, n2, b, val); Requeued(s, t, rs, c, a, n, n2, b)
  {
    hide WakeUp, MoveWaiters, Requeue, Word, Wake, QueueOf, Taken, WokenReplies, Turned;
    var q := QueueOf(s.futexes, a);
    var k := Taken(n, |q|);
    QueuesAfterTouch(s.futexes, a);
    WakeUpIsWake(Touch(s, a), a, n);
    WakeQueues(Touch(s, a).futexes, a, n);
    var t := WakeUp(Touch(s, a), a, n).0;
    QueuesAfterTouch(t.futexes, b);
    MoveIsRequeue(Touch(t, b), a, b, n2);
    if a != b {
      RequeueMoves(Touch(t, b).futexes, a, b, n2);
      SliceOfSlice(q, k, Taken(n2, |q| - k));
    } else {
      RequeueTurns(Touch(t, b).futexes, a, n2);
    }
  }

  /** A wait is refused with EWOULDBLOCK exactly when the word is another than expected; otherwise the
      core goes to the end of the futex's queue and gets no answer. */
  lemma {:induction false} FutexWaitExactly(s: Server, c: Core, a: int, val: Int32)
    ensures var (t, rs) := DoFutexWait(s, c, a, val);
      && t.memory == s.memory && (forall x :: x != a ==> QueueOf(t.futexes, x) == QueueOf(s.futexes, x))
      && if val == Word(s, a) then rs == [] && QueueOf(t.futexes, a) == QueueOf(s.futexes, a) + [c]
         else rs == [Reply(c, Result(-11))] && QueueOf(t.futexes, a) == QueueOf(s.futexes, a) && t.tiles == s.tiles
  {
    StallFrame(Touch(s, a), c);
    hide StallThread, Word;
  }

  /** A wake answers the first waiters in order, leaves all others, and returns how many it woke. */
  lemma {:induction false} FutexWakeConserves(s: Server, c: Core, a: int, n: int)
    ensures var (t, rs) := DoFutexWake(s, c, a, n);
      var q := QueueOf(s.futexes, a);
      var k := Taken(n, |q|);
      && rs == WokenReplies(q[..k]) + [Reply(c, Result(k))]
      && QueueOf(t.futexes, a) == q[k..] && t.memory == s.memory
      && forall x :: x != a ==> QueueOf(t.futexes, x) == QueueOf(s.futexes, x)
  {
    hide WakeUp, Wake, QueueOf, Taken, WokenReplies;
    QueuesAfterTouch(s.futexes, a);
    WakeUpIsWake(Touch(s, a), a, n);
    WakeQueues(Touch(s, a).futexes, a, n);
  }

  /** How many of `waiting` cores the second pass of a wake-op takes, if it is made at all. */
  function SecondPass(made: bool, n: int, waiting: nat): (m: nat)
    ensures m <= waiting
  {
    if made then Taken(n, waiting) else 0
  }

  /** `c` woke the first waiters at `a` and, if `made`, those then first at `b`, which may be the
      same futex; all others are left in order, and `c` is told how many it woke. */
  ghost predicate WokenAtBoth(s: Server, t: Server, rs: seq<Reply>, c: Core, a: int, n: int, b: int, n2: int,
      made: bool)
  {
    var q := QueueOf(s.futexes, a);
    var k := Taken(n, |q|);
    var p := if a == b then q[k..] else QueueOf(s.futexes, b);
    var m := SecondPass(made, n2, |p|);
    && rs == WokenReplies(q[..k]) + WokenReplies(p[..m]) + [Reply(c, Result(k + m))]
    && (a != b ==> QueueOf(t.futexes, a) == q[k..]) && QueueOf(t.futexes, b) == p[m..]
    && forall x :: x != a && x != b ==> QueueOf(t.futexes, x) == QueueOf(s.futexes, x)
  }

  /** Wake-op does to the word what its operation says, and wakes from the second futex exactly when
      its comparison holds of the old word; an unknown operation or comparison is refused. */
  lemma {:induction false} WakeOpConserves(s: Server, c: Core, a: int, n: int, n2: int, b: int, e: WakeOp)
    requires InFields(e)
    ensures var (t, rs) := DoWakeOp(s, c, a, n, n2, b, Encoded(e));
      if Known(e) then
        && WokenAtBoth(s, t, rs, c, a, n, b, n2, Holds(e, Word(s, b)))
        && Changes(e, Word(s, b), Word(t, b)) && forall x :: x != b ==> Word(t, x) == Word(s, x)
      else t == Abort(s) && rs == []
  {
    hide Encoded, Changes, Holds, NewValue, Compared, WokenAtBoth, WakeUp, WakeIf, WokenReplies;
    OperationsDecoded(e, Word(s, b));
    if Known(e) {
      WakesAtBoth(s, c, a, n, n2, b, Encoded(e));
    }
  }

  lemma {:induction false} WakesAtBoth(s: Server, c: Core, a: int, n: int, n2: int, b: int, op: Int32)
    requires NewValue(op, Word(s, b)).Some? && Compared(op, Word(s, b)).Some?
    ensures var (t, rs) := DoWakeOp(s, c, a, n, n2, b, op);
      && WokenAtBoth(s, t, rs, c, a, n, b, n2, Compared(op, Word(s, b)).value)
      && t.memory == s.memory[b := NewValue(op, Word(s, b)).value]
  {
    hide WakeUp, Wake, QueueOf, Taken, WokenReplies, NewValue, Compared, Word;
    var s1 := s.(memory := s.memory[b := NewValue(op, Word(s, b)).value]);
    QueuesAfterTouch(s1.futexes, a);
    WakeUpIsWake(Touch(s1, a), a, n);
    WakeQueues(Touch(s1, a).futexes, a, n);
    var t := WakeUp(Touch(s1, a), a, n).0;
    QueuesAfterTouch(t.futexes, b);
    WakeUpIsWake(Touch(t, b), b, n2);
    WakeQueues(Touch(t, b).futexes, b, n2);
    NoneOf(QueueOf(t.futexes, b));
  }

  lemma {:induction false} NoneOf(q: seq<Core>)
    ensures q[..0] == [] && q[0..] == q
  {
  }

  lemma {:induction false} OnFutexOf(s: Server, at: map<Core, Place>, a: int)
    requires Inv(s, at)
    ensures NoRepeats(QueueOf(s.futexes, a))
    ensures forall c :: c in QueueOf(s.futexes, a) ==> c in at && at[c] == OnFutex(a)
  {
    hide Inv, Queue, Front, NoRepeats;
    ParkedOf(s, at);
    FutexQueue(s, a);
    assert NoRepeats(Queue(s, OnFutex(a)));
  }

  lemma {:induction false} FutexExpects(s: Server, cl: seq<Client>, at: map<Core, Place>, busy: Option<Core>, a: int,
      k: nat, exited: set<int>)
    requires Inv(s, at) && k <= |QueueOf(s.futexes, a)| && (busy.Some? ==> busy.value !in at)
    ensures Expect(s, cl, at, busy, QueueOf(s.futexes, a)[..k], Result(0), exited)
  {
    hide Inv;
    OnFutexOf(s, at, a);
    var q := QueueOf(s.futexes, a);
    assert forall c :: c in q[..k] ==> c in q;
  }

  lemma {:induction false} WakeUpClients(s: Server, cl: seq<Client>, at: map<Core, Place>, c: Core, a: int, n: int)
    returns (at': map<Core, Place>)
    requires SysOk(s, cl, at, Some(c)) && c < |cl| && c !in at && a in s.futexes
    ensures var (t, woken) := WakeUp(s, a, n);
      && FutexOnly(s, t) && c !in at'
      && SysOk(t, DeliverAll(cl, WokenReplies(woken), t.exited), at', Some(c))
      && DeliverAll(cl, WokenReplies(woken), t.exited)[c] == cl[c]
  {
    hide Inv, Blocked, Owned, Recorded, WakeUp, DeliverAll, Expect;
    var (t, woken) := WakeUp(s, a, n);
    WakeUpIsWake(s, a, n);
    WakeUpOk(s, a, n, at);
    FutexExpects(s, cl, at, Some(c), a, Taken(n, |QueueOf(s.futexes, a)|), t.exited);
    FreeSeveral(s, t, cl, at, Some(c), woken, Result(0));
    assert WokenReplies(woken) == Replies(woken, Result(0));
    at' := at - (set d | d in woken);
  }

  lemma {:induction false} TouchClients(s: Server, cl: seq<Client>, at: map<Core, Place>, busy: Option<Core>, a: int)
    requires SysOk(s, cl, at, busy)
    ensures SysOk(Touch(s, a), cl, at, busy) && a in Touch(s, a).futexes && FutexOnly(s, Touch(s, a))
    ensures forall d :: Front(Touch(s, a), d) == Front(s, d)
  {
    hide Inv, ClientsOk, Front;
    TouchOk(s, a, at);
    Untouched(s, Touch(s, a), cl, at, busy);
  }

  lemma {:induction false} FutexWaitClients(s: Server, cl: seq<Client>, at: map<Core, Place>, c: Core, a: int,
      val: Int32)
    requires SysOk(s, cl, at, Some(c)) && Front(s, c) == Running && c < |cl| && cl[c].Waiting?
    requires cl[c].want == WantFutex
    ensures var (t, rs) := DoFutexWait(s, c, a, val);
      SysOk(t, DeliverAll(cl, rs, t.exited), if val == Word(s, a) then at[c := OnFutex(a)] else at, None)
  {
    hide Inv, Blocked, Owned, Recorded, Front, Touch, Enqueue, DeliverAll, Word;
    Whereabouts(s, at, c);
    TouchClients(s, cl, at, Some(c), a);
    var t := Touch(s, a);
    if val == Word(s, a) {
      EnqueueOk(t, a, c, at);
      EnqueueFrame(t, a, c);
      BlockedPark(t, Enqueue(t, a, c), cl, at, c, OnFutex(a));
      DeliverNone(cl, t.exited);
    } else {
      Acked(t, cl, at, c, Result(-EWOULDBLOCK));
    }
  }

  lemma {:induction false} FutexWakeClients(s: Server, cl: seq<Client>, at: map<Core, Place>, c: Core, a: int, n: int)
    returns (at': map<Core, Place>)
    requires SysOk(s, cl, at, Some(c)) && c < |cl| && c !in at && cl[c].Waiting? && cl[c].want == WantFutex
    ensures var (t, rs) := DoFutexWake(s, c, a, n); SysOk(t, DeliverAll(cl, rs, t.exited), at', None)
  {
    hide SysOk, Touch, WakeUp, DeliverAll, WokenReplies;
    TouchClients(s, cl, at, Some(c), a);
    at' := WakeUpClients(Touch(s, a), cl, at, c, a, n);
    var (t, woken) := WakeUp(Touch(s, a), a, n);
    DeliverConcat(cl, WokenReplies(woken), [Reply(c, Result(|woken|))], t.exited);
    Acked(t, DeliverAll(cl, WokenReplies(woken), t.exited), at', c, Result(|woken|));
  }

  lemma {:induction false} MemoryClients(s: Server, cl: seq<Client>, at: map<Core, Place>, busy: Option<Core>,
      memory: map<int, Int32>)
    requires SysOk(s, cl, at, busy)
    ensures SysOk(s.(memory := memory), cl, at, busy)
  {
    hide ThreadsOk, ClientsOk;
    var t := s.(memory := memory);
    SameQueuesOk(s, t);
    hide Queue, Front;
    QuietOk(s, t, at);
    Untouched(s, t, cl, at, busy);
  }

  lemma {:induction false} WakeOpClients(s: Server, cl: seq<Client>, at: map<Core, Place>, c: Core, a: int, n: int,
      n2: int, b: int, op: Int32)
    returns (at': map<Core, Place>)
    requires SysOk(s, cl, at, Some(c)) && c < |cl| && c !in at && cl[c].Waiting? && cl[c].want == WantFutex
    requires NewValue(op, Word(s, b)).Some? && Compared(op, Word(s, b)).Some?
    ensures var (t, rs) := DoWakeOp(s, c, a, n, n2, b, op); SysOk(t, DeliverAll(cl, rs, t.exited), at', None)
  {
    hide SysOk, Touch, WakeUp, DeliverAll, WokenReplies, NewValue, Compared, Word;
    var value, holds := NewValue(op, Word(s, b)), Compared(op, Word(s, b));
    var s1 := s.(memory := s.memory[b := value.value]);
    MemoryClients(s, cl, at, Some(c), s1.memory);
    TouchClients(s1, cl, at, Some(c), a);
    var at1 := WakeUpClients(Touch(s1, a), cl, at, c, a, n);
    var (t, woken) := WakeUp(Touch(s1, a), a, n);
    var cl1 := DeliverAll(cl, WokenReplies(woken), t.exited);
    var u, woken2, cl2 := t, [], cl1;
    at' := at1;
    if holds.value {
      TouchClients(t, cl1, at1, Some(c), b);
      at' := WakeUpClients(Touch(t, b), cl1, at1, c, b, n2);
      u, woken2 := WakeUp(Touch(t, b), b, n2).0, WakeUp(Touch(t, b), b, n2).1;
      cl2 := DeliverAll(cl1, WokenReplies(woken2), u.exited);
    } else {
      NoReplies();
      DeliverNone(cl1, t.exited);
    }
    var last := [Reply(c, Result(|woken| + |woken2|))];
    DeliverConcat(cl, WokenReplies(woken), WokenReplies(woken2), u.exited);
    DeliverConcat(cl, WokenReplies(woken) + WokenReplies(woken2), last, u.exited);
    Acked(u, cl2, at', c, Result(|woken| + |woken2|));
  }

  lemma {:induction false} NoReplies()
    ensures WokenReplies([]) == []
  {
  }

  lemma {:induction false} MoveClients(s: Server, cl: seq<Client>, at: map<Core, Place>, c: Core, a: int, b: int,
      n: int)
    returns (at': map<Core, Place>)
    requires SysOk(s, cl, at, Some(c)) && c !in at
    ensures var (t, moved) := MoveWaiters(s, a, b, n); FutexOnly(s, t) && SysOk(t, cl, at', Some(c)) && c !in at'
  {
    hide Inv, Owned, Recorded, MoveWaiters;
    at' := MoveWaitersOk(s, a, b, n, at);
    MoveIsRequeue(s, a, b, n);
    assert c !in at';
  }

  lemma {:induction false} CmpRequeueClients(s: Server, cl: seq<Client>, at: map<Core, Place>, c: Core, a: int, n: int,
      n2: int, b: int, val: Int32)
    returns (at': map<Core, Place>)
    requires SysOk(s, cl, at, Some(c)) && c < |cl| && c !in at && cl[c].Waiting? && cl[c].want == WantFutex
    ensures var (t, rs) := DoCmpRequeue(s, c, a, n, n2, b, val); SysOk(t, DeliverAll(cl, rs, t.exited), at', None)
  {
    hide SysOk, Touch, WakeUp, MoveWaiters, DeliverAll, WokenReplies, Word;
    if val != Word(s, a) {
      at' := at;
      Acked(s, cl, at, c, Result(-EWOULDBLOCK));
    } else {
      TouchClients(s, cl, at, Some(c), a);
      at' := WakeUpClients(Touch(s, a), cl, at, c, a, n);
      var (t, woken) := WakeUp(Touch(s, a), a, n);
      var cl1 := DeliverAll(cl, WokenReplies(woken), t.exited);
      TouchClients(t, cl1, at', Some(c), b);
      at' := MoveClients(Touch(t, b), cl1, at', c, a, b, n2);
      var (u, moved) := MoveWaiters(Touch(t, b), a, b, n2);
      DeliverConcat(cl, WokenReplies(woken), [Reply(c, Result(|woken| + moved))], u.exited);
      Acked(u, cl1, at', c, Result(|woken| + moved));
    }
  }
}
