/** Every request is answered once, with the code its client expects, in every run of the master and
    its clients: also in runs in which a signal has mixed up whose mutex is recorded for whom. */
module McpAnswers {
  import opened Options
  import opened SyncObjects
  import opened Threads
  import opened MasterControl
  import opened McpInvariant
  import opened McpClients
  import opened McpRuns

  // ----- clients that differ only in which mutexes they think of -----

  ghost predicate SameWant(a: Want, b: Want) {
    a == b || (a.WantCond? && b.WantCond? && a.v == b.v)
  }

  ghost predicate AlikeOne(x: Client, y: Client) {
    || (x.Ready? && y.Ready?) || (x.Broken? && y.Broken?)
    || (x.Waiting? && y.Waiting? && SameWant(x.want, y.want))
  }

  ghost predicate Alike(cl: seq<Client>, cl': seq<Client>) {
    |cl| == |cl'| && forall c :: 0 <= c < |cl| ==> AlikeOne(cl[c], cl'[c])
  }

  lemma {:induction false} AlikeDeliver(x: Client, y: Client, body: Body, exited: set<int>)
    requires AlikeOne(x, y)
    ensures AlikeOne(Deliver(x, body, exited), Deliver(y, body, exited))
  {
  }

  lemma {:induction false} AlikeDeliverAll(cl: seq<Client>, cl': seq<Client>, rs: seq<Reply>, exited: set<int>)
    requires Alike(cl, cl')
    ensures Alike(DeliverAll(cl, rs, exited), DeliverAll(cl', rs, exited))
    decreases |rs|
  {
    hide AlikeOne, Deliver;
    if rs != [] {
      var r := rs[0];
      if r.core >= |cl| {
        AlikeDeliverAll(cl, cl', rs[1..], exited);
      } else {
        AlikeDeliver(cl[r.core], cl'[r.core], r.body, exited);
        AlikeDeliverAll(cl[r.core := Deliver(cl[r.core], r.body, exited)],
          cl'[r.core := Deliver(cl'[r.core], r.body, exited)],
          rs[1..], exited);
      }
    }
  }

  lemma {:induction false} AlikeSending(s: Server, r: Request, held: set<nat>, held': set<nat>)
    ensures AlikeOne(Sending(s, r, held), Sending(s, r, held'))
  {
  }

  /** Alike clients take the same steps. */
  lemma {:induction false} AlikeNext(y: System, y': System, e: Event)
    requires y.server == y'.server && Alike(y.clients, y'.clients) && Enabled(y, e)
    ensures Enabled(y', e) && Next(y', e).server == Next(y, e).server && Alike(Next(y, e).clients, Next(y', e).clients)
  {
    hide Allowed, Handle, Deliver, Sending;
    if e.Message? {
      var (t, rs) := Handle(y.server, e.r);
      if e.r.Start? {
        AlikeDeliverAll(y.clients, y'.clients, rs, t.exited);
      } else {
        var c := e.r.c;
        assert y'.clients[c].Ready?;
        var x, x' := Sending(y.server, e.r, y.clients[c].held), Sending(y.server, e.r, y'.clients[c].held);
        AlikeSending(y.server, e.r, y.clients[c].held, y'.clients[c].held);
        AlikeDeliverAll(y.clients[c := x], y'.clients[c := x'], rs, t.exited);
      }
    }
  }

  lemma {:induction false} AlikeTwice(a: seq<Client>, b: seq<Client>, c: seq<Client>)
    requires Alike(a, b) && Alike(b, c)
    ensures Alike(a, c)
  {
  }

  // ----- clients that think of the mutexes recorded for them -----

  ghost function LabelOf(ws: seq<CondWaiter>, d: Core): Option<nat> {
    if ws == [] then None else if ws[0].core == d then Some(ws[0].mutex) else LabelOf(ws[1..], d)
  }

  lemma {:induction false} LabelIs(ws: seq<CondWaiter>, i: nat)
    requires i < |ws| && NoRepeats(Cores(ws))
    ensures LabelOf(ws, ws[i].core) == Some(ws[i].mutex)
  {
    if i > 0 {
      assert Cores(ws)[0] != Cores(ws)[i];
      CoresFirst(ws);
      TailWithout(Cores(ws));
      LabelIs(ws[1..], i - 1);
    }
  }

  lemma {:induction false} LabelNone(ws: seq<CondWaiter>, d: Core)
    requires d !in Cores(ws)
    ensures LabelOf(ws, d) == None
  {
    if ws != [] {
      CoresFirst(ws);
      assert Cores(ws)[0] in Cores(ws);
      assert forall x :: x in Cores(ws)[1..] ==> x in Cores(ws);
      LabelNone(ws[1..], d);
    }
  }

  lemma {:induction false} LabelSome(ws: seq<CondWaiter>, d: Core)
    ensures LabelOf(ws, d).Some? ==> d in Cores(ws)
  {
    if d !in Cores(ws) {
      LabelNone(ws, d);
    }
  }

  ghost function RelabelOne(x: Client, l: Option<nat>, v: nat): Client {
    if l.Some? && x.Waiting? then Waiting(WantCond(v, l.value), x.held) else x
  }

  /** The waiters `ws` on the condition `v` think of the mutexes recorded for them. */
  ghost function Relabel(cl: seq<Client>, ws: seq<CondWaiter>, v: nat): (r: seq<Client>)
    ensures |r| == |cl|
  {
    seq(|cl|, d requires 0 <= d < |cl| => RelabelOne(cl[d], LabelOf(ws, d), v))
  }

  /** Those that wait on the condition `v` are stalled there. */
  lemma {:induction false} OnCondition(s: Server, at: map<Core, Place>, v: nat, d: Core)
    requires Inv(s, at) && v < |s.conds|
    ensures NoRepeats(Cores(s.conds[v])) && (d in Cores(s.conds[v]) ==> d in at && at[d] == OnCond(v))
  {
    hide Inv, Front;
    ParkedOf(s, at);
    CondQueue(s, v);
    assert NoRepeats(Queue(s, OnCond(v)));
    hide Queue, NoRepeats;
  }

  /** Relabelling changes only what the relabelled clients think of. */
  lemma {:induction false} RelabelAlike(s: Server, cl: seq<Client>, at: map<Core, Place>, busy: Option<Core>,
      ws: seq<CondWaiter>, v: nat)
    requires Blocked(s, cl, at, busy) && forall d :: d in Cores(ws) ==> d in at && at[d] == OnCond(v)
    ensures Alike(cl, Relabel(cl, ws, v)) && SameHeld(cl, Relabel(cl, ws, v))
    ensures Blocked(s, Relabel(cl, ws, v), at, busy)
  {
    hide LabelOf;
    var cl' := Relabel(cl, ws, v);
    forall d | 0 <= d < |cl|
      ensures AlikeOne(cl[d], cl'[d]) && !cl[d].Broken? && !cl'[d].Broken? && cl'[d].held == cl[d].held
      ensures cl'[d].Waiting? <==> cl[d].Waiting?
      ensures d in at ==> Fits(s, cl'[d].want, at[d])
    {
      LabelSome(ws, d);
    }
  }

  /** After relabelling, the records that a signal leaves are right. */
  lemma {:induction false} RelabelRecorded(s: Server, cl: seq<Client>, at: map<Core, Place>, v: nat)
    requires Inv(s, at) && Recorded(s.conds, cl) && |cl| == |s.tiles| && v < |s.conds| && s.conds[v] != []
    ensures Recorded(s.conds[v := Erased(s.conds[v])], Relabel(cl, Erased(s.conds[v]), v))
    ensures forall d :: d in Cores(Erased(s.conds[v])) ==> d in at && at[d] == OnCond(v)
    ensures var d := s.conds[v][0].core; d < |cl| ==> Relabel(cl, Erased(s.conds[v]), v)[d] == cl[d]
  {
    hide Inv, LabelOf;
    var ws, rest := s.conds[v], Erased(s.conds[v]);
    ErasedCores(ws);
    forall d: nat
      ensures d in Cores(rest) ==> d in at && at[d] == OnCond(v)
    {
      OnCondition(s, at, v, d);
      assert d in Cores(rest) ==> d in Cores(ws);
    }
    OnCondition(s, at, v, 0);
    CoresFirst(ws);
    TailWithout(Cores(ws));
    LabelNone(rest, ws[0].core);
    var cl' := Relabel(cl, rest, v);
    var after: seq<seq<CondWaiter>> := s.conds[v := rest];
    forall u, i | 0 <= u < |after| && 0 <= i < |after[u]| && after[u][i].core < |cl|
      ensures cl'[after[u][i].core].Waiting? && cl'[after[u][i].core].want == WantCond(u, after[u][i].mutex)
    {
      var d := after[u][i].core;
      if u == v {
        assert rest[i].core == ws[i + 1].core;
        LabelIs(rest, i);
      } else {
        assert Cores(s.conds[u])[i] == d && d in Cores(s.conds[u]);
        OnCondition(s, at, u, d);
        LabelNone(rest, d);
      }
    }
  }

  /** Any signal is served to clients that think of the recorded mutexes. */
  lemma {:induction false} AnySignal(s: Server, cl: seq<Client>, at: map<Core, Place>, c: Core, v: nat, time: nat)
    returns (cl': seq<Client>, at': map<Core, Place>)
    requires SysOk(s, cl, at, Some(c)) && c < |cl| && c !in at && v < |s.conds| && s.conds[v] != []
    requires cl[c].Waiting? && cl[c].want == WantCode(COND_SIGNAL_RESPONSE)
    ensures Alike(cl, cl')
    ensures var (t, rs) := DoSignal(s, c, v, time); SysOk(t, DeliverAll(cl', rs, t.exited), at', None)
  {
    hide Inv, Blocked, Recorded, Owned, DoSignal, Erased, Relabel, Fits;
    var w := s.conds[v][0];
    FirstOnList(s, at, v);
    NotBroken(s, cl, at, Some(c));
    FirstWants(s.conds, cl, v);
    RelabelRecorded(s, cl, at, v);
    cl' := Relabel(cl, Erased(s.conds[v]), v);
    RelabelAlike(s, cl, at, Some(c), Erased(s.conds[v]), v);
    OwnedHeld(s.mutexes, cl, cl');
    SignallerStays(s, cl, at, c, v);
    SignalServed(s, cl', at, c, v, time);
    at' := if s.mutexes[w.mutex].owner.None? then at - {w.core} else at[w.core := OnMutex(w.mutex)];
  }

  lemma {:induction false} SignallerStays(s: Server, cl: seq<Client>, at: map<Core, Place>, c: Core, v: nat)
    requires Inv(s, at) && c < |cl| && c !in at && v < |s.conds| && s.conds[v] != []
    ensures Relabel(cl, Erased(s.conds[v]), v)[c] == cl[c]
  {
    hide Inv, LabelOf;
    OnCondition(s, at, v, c);
    ErasedCores(s.conds[v]);
    assert c !in Cores(Erased(s.conds[v]));
    LabelNone(Erased(s.conds[v]), c);
  }

  /** Every step is served to clients alike the real ones. */
  lemma {:induction false} AnyStep(y: System, shadow: seq<Client>, at: map<Core, Place>, e: Event)
    returns (shadow': seq<Client>, at': map<Core, Place>)
    requires Alike(y.clients, shadow) && SysOk(y.server, shadow, at, None)
    requires Enabled(y, e) && (e.Message? ==> Accepted(y.server, e.r))
    ensures Alike(Next(y, e).clients, shadow') && SysOk(Next(y, e).server, shadow', at', None)
  {
    var z := System(y.server, shadow);
    hide SysOk, Alike, Accepted, Enabled, Handle;
    AlikeNext(y, z, e);
    if Careful(y.server, e) {
      at' := StepOk(z, at, e);
      shadow' := Next(z, e).clients;
    } else {
      shadow', at' := AnySignalStep(y, z, at, e);
    }
  }

  lemma {:induction false} AnySignalStep(y: System, z: System, at: map<Core, Place>, e: Event)
    returns (shadow': seq<Client>, at': map<Core, Place>)
    requires y.server == z.server && Alike(y.clients, z.clients) && SysOk(z.server, z.clients, at, None)
    requires Enabled(y, e) && Enabled(z, e) && !Careful(y.server, e) && Accepted(y.server, e.r)
    ensures Alike(Next(y, e).clients, shadow') && SysOk(Next(y, e).server, shadow', at', None)
  {
    var s, cl, c, v := z.server, z.clients, e.r.c, e.r.v;
    var sent := cl[c := Sending(s, e.r, cl[c].held)];
    SentOk(s, cl, at, e.r);
    AlikeNext(y, z, e);
    hide SysOk, DoSignal, Allowed, Deliver;
    var cl';
    cl', at' := AnySignal(s, sent, at, c, v, e.r.time);
    var (t, rs) := DoSignal(s, c, v, e.r.time);
    shadow' := DeliverAll(cl', rs, t.exited);
    AlikeDeliverAll(sent, cl', rs, t.exited);
    AlikeTwice(Next(y, e).clients, Next(z, e).clients, shadow');
  }

  lemma {:induction false} AnyRun(y: System, es: seq<Event>, z: System, shadow: seq<Client>, at: map<Core, Place>)
    returns (shadow': seq<Client>, at': map<Core, Place>)
    requires Alike(y.clients, shadow) && SysOk(y.server, shadow, at, None) && Runs(y, es, z)
    ensures Alike(z.clients, shadow') && SysOk(z.server, shadow', at', None)
    decreases |es|
  {
    hide SysOk, Alike, Accepted, Enabled, Next;
    shadow', at' := shadow, at;
    if es != [] {
      shadow', at' := AnyStep(y, shadow, at, es[0]);
      shadow', at' := AnyRun(Next(y, es[0]), es[1..], z, shadow', at');
    }
  }

  /** In every run no client gets a reply that it does not wait for or that has another code than it
      expects, and the blocked clients are exactly those that wait somewhere: so every request is
      answered at most once, and has been answered unless its client waits in a queue. */
  lemma {:induction false} AlwaysAnswered(y: System, es: seq<Event>, z: System, c: Core)
    requires Init(y) && Runs(y, es, z) && c < |z.clients|
    ensures !z.clients[c].Broken?
    ensures z.clients[c].Waiting? <==> exists p :: c in Queue(z.server, p)
  {
    InitOk(y);
    assert Alike(y.clients, y.clients);
    hide Init, Runs, Queue, SysOk;
    var shadow, at := AnyRun(y, es, z, y.clients, map[]);
    hide Fits;
    Blocks(z.server, shadow, at, c);
  }
}
