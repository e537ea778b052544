/** The contention model that books service windows in a list of free intervals
    (common/shared_models/queue_models/queue_model_history_tree.cc), as a function of that
    list.  The list is kept in the interval tree; see QueueModelHistoryTree.dfy. */
module QueueHistory {
  import opened TreeShapes

  /** The free intervals in order of time, at least `minLen` long, with time booked in between. */
  ghost predicate FreeList(f: seq<Interval>, minLen: nat) {
    && (forall i :: 0 <= i < |f| ==> f[i].first + minLen <= f[i].second)
    && (forall i, j :: 0 <= i < j < |f| ==> f[i].second < f[j].first)
  }

  datatype Request = Request(time: UInt64, length: UInt64)

  ghost predicate InRange(r: Request) {
    r.time + r.length < TWO64
  }

  ghost function Wanted(r: Request): Interval
    requires InRange(r)
  {
    Interval(r.time, r.time + r.length)
  }

  /** First fit: the index of the first free interval with room, or -1. */
  ghost function FitIndex(f: seq<Interval>, req: Interval): int {
    if f == [] then -1
    else if CanHost(f[0], req) then 0
    else var k := FitIndex(f[1..], req); if k < 0 then -1 else k + 1
  }

  lemma {:induction false} FitIndexIsFirst(f: seq<Interval>, req: Interval)
    ensures -1 <= FitIndex(f, req) < |f|
    ensures var k := FitIndex(f, req);
      && (k >= 0 ==> CanHost(f[k], req))
      && (forall i :: 0 <= i < |f| && (k < 0 || i < k) ==> !CanHost(f[i], req))
  {
    if f != [] && !CanHost(f[0], req) {
      FitIndexIsFirst(f[1..], req);
      assert forall i :: 0 < i < |f| ==> f[i] == f[1..][i - 1];
    }
  }

  ghost function Start(i: Interval, r: Request): UInt64 {
    if r.time >= i.first then r.time else i.first
  }

  /** What booking the request in the interval `i` leaves of it. */
  ghost function Rest(i: Interval, r: Request, minLen: nat): seq<Interval>
    requires InRange(r) && CanHost(i, Wanted(r))
  {
    var s := Start(i, r);
    var head := if r.time >= i.first && r.time - i.first >= minLen then [Interval(i.first, r.time)] else [];
    var tail := if i.second - (s + r.length) >= minLen then [Interval(s + r.length, i.second)] else [];
    head + tail
  }

  ghost function Book(f: seq<Interval>, k: nat, r: Request, minLen: nat): seq<Interval>
    requires k < |f| && InRange(r) && CanHost(f[k], Wanted(r))
  {
    f[..k] + Rest(f[k], r, minLen) + f[k + 1..]
  }

  lemma {:induction false} RestWithin(i: Interval, r: Request, minLen: nat)
    requires InRange(r) && CanHost(i, Wanted(r))
    ensures |Rest(i, r, minLen)| <= 2
    ensures FreeList(Rest(i, r, minLen), minLen) <==> r.length >= 1 || |Rest(i, r, minLen)| < 2
    ensures forall j :: 0 <= j < |Rest(i, r, minLen)| ==>
      var x := Rest(i, r, minLen)[j];
      && i.first <= x.first <= x.second <= i.second
      && (x.second <= Start(i, r) || Start(i, r) + r.length <= x.first)
  {
    var rest := Rest(i, r, minLen);
    if r.length == 0 && |rest| == 2 {
      assert rest[0].second == rest[1].first;
    }
  }

  lemma {:induction false} BookAt(f: seq<Interval>, k: nat, r: Request, minLen: nat, j: nat)
    requires k < |f| && InRange(r) && CanHost(f[k], Wanted(r))
    ensures var rest := Rest(f[k], r, minLen);
      && |Book(f, k, r, minLen)| == |f| - 1 + |rest|
      && (j < |f| - 1 + |rest| ==>
            Book(f, k, r, minLen)[j] ==
              if j < k then f[j] else if j < k + |rest| then rest[j - k] else f[j - |rest| + 1])
  {
    hide Rest, CanHost, InRange;
  }

  /** Booking keeps the free intervals apart exactly when it takes some time or does not split one. */
  lemma {:induction false} BookKeepsFree(f: seq<Interval>, k: nat, r: Request, minLen: nat)
    requires FreeList(f, minLen) && k < |f| && InRange(r) && CanHost(f[k], Wanted(r))
    ensures FreeList(Book(f, k, r, minLen), minLen) <==> r.length >= 1 || |Rest(f[k], r, minLen)| < 2
  {
    RestWithin(f[k], r, minLen);
    hide Book, Rest, CanHost;
    var g, rest := Book(f, k, r, minLen), Rest(f[k], r, minLen);
    if r.length >= 1 || |rest| < 2 {
      BookApart(f, k, r, minLen);
    } else {
      BookAt(f, k, r, minLen, k);
      BookAt(f, k, r, minLen, k + 1);
      assert g[k] == rest[0] && g[k + 1] == rest[1];
      if FreeList(g, minLen) {
        PairFree(rest, g, k, minLen);
      }
    }
  }

  lemma {:induction false} PairFree(rest: seq<Interval>, g: seq<Interval>, k: nat, minLen: nat)
    requires |rest| == 2 && k + 1 < |g| && g[k] == rest[0] && g[k + 1] == rest[1] && FreeList(g, minLen)
    ensures FreeList(rest, minLen)
  {
  }

  lemma {:induction false} BookApart(f: seq<Interval>, k: nat, r: Request, minLen: nat)
    requires FreeList(f, minLen) && k < |f| && InRange(r) && CanHost(f[k], Wanted(r))
    requires FreeList(Rest(f[k], r, minLen), minLen)
    ensures FreeList(Book(f, k, r, minLen), minLen)
  {
    RestWithin(f[k], r, minLen);
    hide Book, Rest, CanHost;
    var g := Book(f, k, r, minLen);
    forall j | 0 <= j < |g|
      ensures g[j].first + minLen <= g[j].second
    {
      BookAt(f, k, r, minLen, j);
    }
    forall i, j | 0 <= i < j < |g|
      ensures g[i].second < g[j].first
    {
      BookAt(f, k, r, minLen, i);
      BookAt(f, k, r, minLen, j);
    }
  }

  datatype Outcome =
    | Booked(start: UInt64)
    | Analytical
    | NoRoom

  datatype Config = Config(maxSize: nat, minLen: nat, analytical: bool)

  ghost predicate Usable(c: Config) {
    c.maxSize >= 2 && c.minLen >= 1
  }

  /** Forgets the earliest free interval when the list has grown to its limit. */
  ghost function Pruned(f: seq<Interval>, c: Config): seq<Interval> {
    if |f| >= c.maxSize && f != [] then f[1..] else f
  }

  ghost function Serve(f: seq<Interval>, r: Request, c: Config): (seq<Interval>, Outcome)
    requires InRange(r)
  {
    var g := Pruned(f, c);
    FitIndexIsFirst(g, Wanted(r));
    var k := FitIndex(g, Wanted(r));
    if c.analytical && g != [] && g[0].first > r.time + r.length then (g, Analytical)
    else if k < 0 then (g, NoRoom)
    else (Book(g, k, r, c.minLen), Booked(Start(g[k], r)))
  }

  lemma {:induction false} PrunedIs(f: seq<Interval>, c: Config)
    ensures |f| < c.maxSize ==> Pruned(f, c) == f
    ensures |f| >= c.maxSize ==> Pruned(f, c) == if f == [] then [] else f[1..]
  {
  }

  lemma {:induction false} PrunedFree(f: seq<Interval>, c: Config)
    requires FreeList(f, c.minLen)
    ensures FreeList(Pruned(f, c), c.minLen)
    ensures forall i :: 0 <= i < |Pruned(f, c)| ==> Pruned(f, c)[i] in f
  {
  }

  /** Serving a request that takes some time keeps the free intervals apart. */
  lemma {:induction false} ServeKeepsFree(f: seq<Interval>, r: Request, c: Config)
    requires FreeList(f, c.minLen) && InRange(r)
    ensures r.length >= 1 ==> FreeList(Serve(f, r, c).0, c.minLen)
    ensures !Serve(f, r, c).1.Booked? ==> FreeList(Serve(f, r, c).0, c.minLen)
  {
    PrunedFree(f, c);
    var g := Pruned(f, c);
    FitIndexIsFirst(g, Wanted(r));
    var k := FitIndex(g, Wanted(r));
    if Serve(f, r, c).1.Booked? {
      BookKeepsFree(g, k, r, c.minLen);
    }
  }

  /** A request for no time in the middle of an interval leaves two that touch. */
  lemma {:induction false} NoTimeTouches(i: Interval, time: UInt64, minLen: nat)
    requires minLen >= 1 && i.first + minLen <= time && time + minLen <= i.second
    ensures InRange(Request(time, 0)) && CanHost(i, Wanted(Request(time, 0)))
    ensures Book([i], 0, Request(time, 0), minLen) == [Interval(i.first, time), Interval(time, i.second)]
    ensures !FreeList(Book([i], 0, Request(time, 0), minLen), minLen)
  {
    var g := Book([i], 0, Request(time, 0), minLen);
    assert g[0].second == g[1].first;
  }

  // ----- what the bookings are -----

  /** A free interval with room for the request from `start` on. */
  ghost predicate FreeAt(f: seq<Interval>, start: int, length: nat) {
    exists i :: 0 <= i < |f| && f[i].first <= start && start + length <= f[i].second
  }

  ghost predicate Within(x: int, i: Interval) {
    i.first <= x < i.second
  }

  /** The unit of time from `x` on is free. */
  ghost predicate UnitFree(f: seq<Interval>, x: int) {
    exists i :: 0 <= i < |f| && Within(x, f[i])
  }

  /** What a booking leaves of its interval: all of it but the booked window and a part before or
      behind that is shorter than the least length. */
  ghost predicate Kept(i: Interval, r: Request, minLen: nat, x: int) {
    var start := Start(i, r);
    || (i.first <= x < start && start - i.first >= minLen)
    || (start + r.length <= x < i.second && i.second - (start + r.length) >= minLen)
  }

  lemma {:induction false} RestUnits(i: Interval, r: Request, minLen: nat, x: int)
    requires InRange(r) && CanHost(i, Wanted(r))
    ensures UnitFree(Rest(i, r, minLen), x) <==> Kept(i, r, minLen, x)
  {
    var rest := Rest(i, r, minLen);
    if |rest| > 0 {
      assert Within(x, rest[0]) ==> UnitFree(rest, x);
    }
    if |rest| > 1 {
      assert Within(x, rest[1]) ==> UnitFree(rest, x);
    }
  }

  /** Which time is free after a booking: what was free elsewhere, and what is kept of its interval. */
  lemma {:induction false} BookedTime(f: seq<Interval>, k: nat, r: Request, minLen: nat, x: int)
    requires FreeList(f, minLen) && k < |f| && InRange(r) && CanHost(f[k], Wanted(r))
    ensures UnitFree(Book(f, k, r, minLen), x) <==>
      if Within(x, f[k]) then Kept(f[k], r, minLen, x) else UnitFree(f, x)
  {
    hide Rest, Kept, CanHost, Within, UnitFree, FreeList, InRange;
    RestUnits(f[k], r, minLen, x);
    var rest, g := Rest(f[k], r, minLen), Book(f, k, r, minLen);
    UnitsConcat(f[..k], rest + f[k + 1..], x);
    UnitsConcat(rest, f[k + 1..], x);
    assert g == f[..k] + (rest + f[k + 1..]);
    assert f == f[..k] + ([f[k]] + f[k + 1..]);
    UnitsConcat(f[..k], [f[k]] + f[k + 1..], x);
    UnitsConcat([f[k]], f[k + 1..], x);
    OneUnit(f[k], x);
    if Within(x, f[k]) {
      ElsewhereOnly(f, k, minLen, x);
    } else if Kept(f[k], r, minLen, x) {
      KeptWithin(f[k], r, minLen, x);
    }
  }

  lemma {:induction false} UnitsConcat(a: seq<Interval>, b: seq<Interval>, x: int)
    ensures UnitFree(a + b, x) <==> UnitFree(a, x) || UnitFree(b, x)
  {
    hide Within;
    if UnitFree(a, x) {
      var i :| 0 <= i < |a| && Within(x, a[i]);
      assert (a + b)[i] == a[i];
    }
    if UnitFree(b, x) {
      var i :| 0 <= i < |b| && Within(x, b[i]);
      assert (a + b)[|a| + i] == b[i];
    }
  }

  lemma {:induction false} OneUnit(i: Interval, x: int)
    ensures UnitFree([i], x) <==> Within(x, i)
  {
    assert [i][0] == i;
  }

  lemma {:induction false} ElsewhereOnly(f: seq<Interval>, k: nat, minLen: nat, x: int)
    requires FreeList(f, minLen) && k < |f| && Within(x, f[k])
    ensures !UnitFree(f[..k], x) && !UnitFree(f[k + 1..], x)
  {
  }

  lemma {:induction false} KeptWithin(i: Interval, r: Request, minLen: nat, x: int)
    requires InRange(r) && CanHost(i, Wanted(r)) && Kept(i, r, minLen, x)
    ensures Within(x, i)
  {
  }

  /** `start` is at or after the time of the request, has room in `f`, and nothing earlier has. */
  ghost predicate Earliest(f: seq<Interval>, r: Request, start: int) {
    && r.time <= start && FreeAt(f, start, r.length)
    && forall x :: r.time <= x < start ==> !FreeAt(f, x, r.length)
  }

  /** A booking starts as early as the free list allows; when the list has grown to its limit, as
      early as it allows without its earliest interval. */
  lemma {:induction false} BookedIsEarliest(f: seq<Interval>, r: Request, c: Config)
    requires FreeList(f, c.minLen) && InRange(r) && Serve(f, r, c).1.Booked?
    ensures |f| < c.maxSize ==> Earliest(f, r, Serve(f, r, c).1.start)
    ensures |f| >= c.maxSize ==> f != [] && Earliest(f[1..], r, Serve(f, r, c).1.start)
  {
    PrunedIs(f, c);
    PrunedFree(f, c);
    FitIndexIsFirst(Pruned(f, c), Wanted(r));
    hide Book, FitIndex, Pruned, FreeList, CanHost, Earliest;
    FitIsEarliest(Pruned(f, c), r, c.minLen);
  }

  lemma {:induction false} FitIsEarliest(g: seq<Interval>, r: Request, minLen: nat)
    requires FreeList(g, minLen) && InRange(r) && FitIndex(g, Wanted(r)) >= 0
    ensures FitIndex(g, Wanted(r)) < |g| && Earliest(g, r, Start(g[FitIndex(g, Wanted(r))], r))
  {
    hide FitIndex;
    FitIndexIsFirst(g, Wanted(r));
    var k := FitIndex(g, Wanted(r));
    assert g[k].first <= Start(g[k], r) && Start(g[k], r) + r.length <= g[k].second;
    forall x | r.time <= x && FreeAt(g, x, r.length)
      ensures x >= Start(g[k], r)
    {
      var i :| 0 <= i < |g| && g[i].first <= x && x + r.length <= g[i].second;
      assert CanHost(g[i], Wanted(r));
      assert k <= i;
    }
  }

  datatype Window = Window(start: int, end: int)

  ghost predicate Clear(w: Window, i: Interval) {
    w.end <= i.first || i.second <= w.start
  }

  ghost predicate AllClear(ws: seq<Window>, f: seq<Interval>) {
    forall i, j :: 0 <= i < |ws| && 0 <= j < |f| ==> Clear(ws[i], f[j])
  }

  ghost predicate Disjoint(ws: seq<Window>) {
    forall i, j :: 0 <= i < j < |ws| ==> ws[i].end <= ws[j].start || ws[j].end <= ws[i].start
  }

  /** The windows a run of requests is given. */
  ghost function Bookings(f: seq<Interval>, rs: seq<Request>, c: Config): seq<Window>
    requires forall i :: 0 <= i < |rs| ==> InRange(rs[i])
    decreases rs
  {
    if rs == [] then []
    else
      var (g, out) := Serve(f, rs[0], c);
      (if out.Booked? then [Window(out.start, out.start + rs[0].length)] else []) + Bookings(g, rs[1..], c)
  }

  lemma {:induction false} BookedParts(f: seq<Interval>, k: nat, r: Request, minLen: nat, j: nat)
    requires k < |f| && InRange(r) && CanHost(f[k], Wanted(r)) && j < |Book(f, k, r, minLen)|
    ensures var x := Book(f, k, r, minLen)[j];
      || (exists i :: 0 <= i < |f| && i != k && x == f[i])
      || (f[k].first <= x.first <= x.second <= f[k].second
          && Clear(Window(Start(f[k], r), Start(f[k], r) + r.length), x))
  {
    RestWithin(f[k], r, minLen);
    hide Book, Rest, CanHost;
    BookAt(f, k, r, minLen, j);
  }

  lemma {:induction false} BookedClear(f: seq<Interval>, k: nat, r: Request, minLen: nat, ws: seq<Window>)
    requires FreeList(f, minLen) && k < |f| && InRange(r) && CanHost(f[k], Wanted(r))
    requires AllClear(ws, f) && Disjoint(ws)
    ensures var w := Window(Start(f[k], r), Start(f[k], r) + r.length);
      AllClear(ws + [w], Book(f, k, r, minLen)) && Disjoint(ws + [w])
  {
    hide Book;
    var w := Window(Start(f[k], r), Start(f[k], r) + r.length);
    forall i, j | 0 <= i < |ws + [w]| && 0 <= j < |Book(f, k, r, minLen)|
      ensures Clear((ws + [w])[i], Book(f, k, r, minLen)[j])
    {
      BookedParts(f, k, r, minLen, j);
      assert i < |ws| ==> (ws + [w])[i] == ws[i] && Clear(ws[i], f[k]);
    }
    assert forall i :: 0 <= i < |ws| ==> Clear(ws[i], f[k]);
  }

  lemma {:induction false} ServedClear(f: seq<Interval>, r: Request, c: Config, ws: seq<Window>)
    requires FreeList(f, c.minLen) && InRange(r) && AllClear(ws, f) && Disjoint(ws)
    ensures var (g, out) := Serve(f, r, c);
      if out.Booked? then
        var w := Window(out.start, out.start + r.length);
        AllClear(ws + [w], g) && Disjoint(ws + [w])
      else AllClear(ws, g)
  {
    hide Book;
    PrunedFree(f, c);
    var p := Pruned(f, c);
    FitIndexIsFirst(p, Wanted(r));
    assert AllClear(ws, p);
    if Serve(f, r, c).1.Booked? {
      BookedClear(p, FitIndex(p, Wanted(r)), r, c.minLen, ws);
    }
  }

  /** Over any run, no two bookings overlap, and none overlaps what is still free. */
  lemma {:induction false} BookingsDisjoint(f: seq<Interval>, rs: seq<Request>, c: Config, ws: seq<Window>)
    requires FreeList(f, c.minLen) && forall i :: 0 <= i < |rs| ==> InRange(rs[i]) && rs[i].length >= 1
    requires AllClear(ws, f) && Disjoint(ws)
    ensures Disjoint(ws + Bookings(f, rs, c))
    decreases rs
  {
    hide Serve, FreeList, AllClear, Disjoint;
    if rs == [] {
      assert ws + Bookings(f, rs, c) == ws;
    } else {
      var (g, out) := Serve(f, rs[0], c);
      ServeKeepsFree(f, rs[0], c);
      ServedClear(f, rs[0], c, ws);
      if out.Booked? {
        var w := Window(out.start, out.start + rs[0].length);
        BookingsDisjoint(g, rs[1..], c, ws + [w]);
        assert ws + Bookings(f, rs, c) == (ws + [w]) + Bookings(g, rs[1..], c);
      } else {
        BookingsDisjoint(g, rs[1..], c, ws);
        assert Bookings(f, rs, c) == Bookings(g, rs[1..], c);
      }
    }
  }

  // ----- the list does not run out -----

  const LAST := TWO64 - 1

  /** The list ends with an interval that starts by `h` and lasts to the end of time. */
  ghost predicate Open(f: seq<Interval>, h: nat) {
    f != [] && f[|f| - 1].first <= h && f[|f| - 1].second == LAST
  }

  /** Requests that, one after another, fit behind `h`: each pushes the frontier past itself. */
  ghost predicate FitBehind(h: nat, rs: seq<Request>, minLen: nat)
    decreases |rs|
  {
    rs == []
    || (Max(h, rs[0].time) + rs[0].length + minLen <= LAST
        && FitBehind(Max(h, rs[0].time) + rs[0].length, rs[1..], minLen))
  }

  /** Booking leaves a last interval to the end of time. */
  lemma {:induction false} BookKeepsOpen(f: seq<Interval>, k: nat, r: Request, minLen: nat, h: nat)
    requires Open(f, h) && k < |f| && InRange(r) && CanHost(f[k], Wanted(r)) && r.time <= h
    requires h + r.length + minLen <= LAST
    ensures Open(Book(f, k, r, minLen), h + r.length)
  {
    hide Book, CanHost;
    var rest := Rest(f[k], r, minLen);
    if k < |f| - 1 {
      BookAt(f, k, r, minLen, |f| - 2 + |rest|);
    } else {
      RestIsOpen(f[k], r, minLen, h);
      BookAt(f, k, r, minLen, |f| - 2 + |rest|);
    }
  }

  lemma {:induction false} RestIsOpen(i: Interval, r: Request, minLen: nat, h: nat)
    requires InRange(r) && CanHost(i, Wanted(r)) && r.time <= h && i.first <= h && i.second == LAST
    requires h + r.length + minLen <= LAST
    ensures Open(Rest(i, r, minLen), h + r.length)
  {
  }

  lemma {:induction false} ServeKeepsOpen(f: seq<Interval>, r: Request, c: Config, h: nat)
    requires FreeList(f, c.minLen) && Usable(c) && Open(f, h) && r.time <= h && r.length >= 1
    requires h + r.length + c.minLen <= LAST
    ensures InRange(r) && !Serve(f, r, c).1.NoRoom? && Open(Serve(f, r, c).0, h + r.length)
  {
    var g := Pruned(f, c);
    assert Open(g, h);
    FitIndexIsFirst(g, Wanted(r));
    assert CanHost(g[|g| - 1], Wanted(r));
    hide Book, CanHost, Pruned, FitIndex, FreeList;
    if Serve(f, r, c).1.Booked? {
      BookKeepsOpen(g, FitIndex(g, Wanted(r)), r, c.minLen, h);
    }
  }

  ghost function Outcomes(f: seq<Interval>, rs: seq<Request>, c: Config): seq<Outcome>
    requires forall i :: 0 <= i < |rs| ==> InRange(rs[i])
    decreases rs
  {
    if rs == [] then [] else [Serve(f, rs[0], c).1] + Outcomes(Serve(f, rs[0], c).0, rs[1..], c)
  }

  /** Requests that fit behind the start of the last free interval are all served. */
  lemma {:induction false} NeverOutOfRoom(f: seq<Interval>, rs: seq<Request>, c: Config, h: nat)
    requires FreeList(f, c.minLen) && Usable(c) && Open(f, h)
    requires forall i :: 0 <= i < |rs| ==> InRange(rs[i]) && rs[i].length >= 1
    requires FitBehind(h, rs, c.minLen)
    ensures NoRoom !in Outcomes(f, rs, c)
    decreases rs
  {
    if rs != [] {
      hide Serve, FreeList, Max;
      var front := Max(h, rs[0].time);
      FrontAfter(h, rs[0].time);
      assert Open(f, front);
      hide Open;
      ServeKeepsOpen(f, rs[0], c, front);
      ServeKeepsFree(f, rs[0], c);
      NeverOutOfRoom(Serve(f, rs[0], c).0, rs[1..], c, front + rs[0].length);
    }
  }

  lemma {:induction false} FrontAfter(h: nat, time: nat)
    ensures Max(h, time) >= h && Max(h, time) >= time
  {
  }

  /** The request is left to the analytical model if the earliest interval of `g` is behind it;
      otherwise it is booked if an interval of `g` can host it, and finds no room if none can. */
  ghost predicate ServedFrom(g: seq<Interval>, r: Request, c: Config, out: Outcome)
    requires InRange(r)
  {
    var late := c.analytical && g != [] && g[0].first > r.time + r.length;
    var fits := exists i :: 0 <= i < |g| && CanHost(g[i], Wanted(r));
    (out.Analytical? <==> late) && (out.Booked? <==> !late && fits) && (out.NoRoom? <==> !late && !fits)
  }

  /** What becomes of a request, from all free intervals, or from all but the earliest when the list
      has grown to its limit. */
  lemma {:induction false} OutcomeExactly(f: seq<Interval>, r: Request, c: Config)
    requires InRange(r)
    ensures |f| < c.maxSize ==> ServedFrom(f, r, c, Serve(f, r, c).1)
    ensures f != [] && |f| >= c.maxSize ==> ServedFrom(f[1..], r, c, Serve(f, r, c).1)
  {
    PrunedIs(f, c);
    hide CanHost, Pruned, FitIndex, Book;
    FitIndexIsFirst(Pruned(f, c), Wanted(r));
  }

  /** Where nothing is booked the free intervals stay, except for the earliest at the limit. */
  lemma {:induction false} UnbookedStay(f: seq<Interval>, r: Request, c: Config)
    requires InRange(r) && !Serve(f, r, c).1.Booked?
    ensures |f| < c.maxSize ==> Serve(f, r, c).0 == f
    ensures f != [] && |f| >= c.maxSize ==> Serve(f, r, c).0 == f[1..]
  {
    hide CanHost, FitIndex, Book;
  }
}
