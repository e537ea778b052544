/** How tiles, stacks and memory are shared out: the tiles among the processes
    (common/misc/config.cc), the stack windows among tiles and threads (pin/pin_config.cc), and
    the address space between heap, stacks and mapped blocks (common/system/vm_manager.cc). */
module Partition {
  import opened Options

  // ----- tiles -----

  type TileList = seq<nat>

  /** Every tile below `n` is in exactly one list, once; `owner` tells in which. */
  ghost predicate Shares(lists: seq<TileList>, n: nat, owner: seq<nat>) {
    && |owner| == n
    && (forall i, k :: 0 <= i < |lists| && 0 <= k < |lists[i]| ==> lists[i][k] < n && owner[lists[i][k]] == i)
    && (forall t :: 0 <= t < n ==> owner[t] < |lists| && t in lists[owner[t]])
    && (forall i, j, k :: 0 <= i < |lists| && 0 <= j < k < |lists[i]| ==> lists[i][j] != lists[i][k])
  }

  /** The tile `n` goes to the end of list `i`. */
  lemma {:induction false} ShareOne(lists: seq<TileList>, n: nat, owner: seq<nat>, i: nat)
    requires Shares(lists, n, owner) && i < |lists|
    ensures Shares(lists[i := lists[i] + [n]], n + 1, owner + [i])
  {
    var lists', owner' := lists[i := lists[i] + [n]], owner + [i];
    forall t | 0 <= t < n + 1
      ensures owner'[t] < |lists'| && t in lists'[owner'[t]]
    {
      if t < n {
        assert owner'[t] == owner[t] && t in lists[owner[t]];
      } else {
        assert lists'[i][|lists[i]|] == n;
      }
    }
  }

  /** The default mapping deals the tiles out to the processes in turn. */
  method ComputeProcessToTileMapping(procs: nat, tiles: nat) returns (lists: seq<TileList>, ghost owner: seq<nat>)
    requires procs > 0
    ensures |lists| == procs && Shares(lists, tiles, owner)
    ensures forall t :: 0 <= t < tiles ==> owner[t] == t % procs
  {
    lists := seq(procs, _ => []);
    owner := [];
    var current := 0;
    for i := 0 to tiles
      invariant |lists| == procs && current == i % procs && Shares(lists, i, owner)
      invariant forall t :: 0 <= t < i ==> owner[t] == t % procs
    {
      ShareOne(lists, i, owner, current);
      lists := lists[current := lists[current] + [i]];
      owner := owner + [current];
      TurnOne(i, procs);
      current := (current + 1) % procs;
    }
  }

  lemma {:induction false} TurnOne(i: nat, n: nat)
    requires n > 0
    ensures (i % n + 1) % n == (i + 1) % n
  {
    assert i == (i / n) * n + i % n;
    TurnBy(i, n, i / n, i % n);
  }

  lemma {:induction false} TurnBy(i: nat, n: nat, q: nat, r: nat)
    requires r < n && i == q * n + r
    ensures (r + 1) % n == (i + 1) % n
  {
    if r + 1 == n {
      assert (q + 1) * n == q * n + n;
      ModIs(i + 1, n, q + 1, 0);
      ModIs(r + 1, n, 1, 0);
    } else {
      ModIs(i + 1, n, q, r + 1);
      ModIs(r + 1, n, 0, r + 1);
    }
  }

  lemma {:induction false} ModIs(x: nat, n: nat, q: nat, r: nat)
    requires r < n && x == q * n + r
    ensures x % n == r && x / n == q
  {
    var d := x / n - q;
    assert x == n * (x / n) + x % n;
    assert n * d == n * (x / n) - n * q;
    assert d >= 1 ==> n * d >= n;
    assert d <= -1 ==> n * d + n <= 0;
  }

  method MapApplicationTiles(mapping: seq<TileList>, tiles: nat, total: nat,
      ghost owner: seq<nat>) returns (tileToProc: seq<nat>)
    requires Shares(mapping, tiles, owner) && tiles < total
    ensures |tileToProc| == total && tileToProc[..tiles] == owner
  {
    tileToProc := seq(total, _ => 0);
    for i := 0 to |mapping|
      invariant |tileToProc| == total
      invariant forall t :: 0 <= t < tiles && owner[t] < i ==> tileToProc[t] == owner[t]
    {
      for k := 0 to |mapping[i]|
        invariant |tileToProc| == total
        invariant forall t :: 0 <= t < tiles && owner[t] < i ==> tileToProc[t] == owner[t]
        invariant forall j :: 0 <= j < k ==> tileToProc[mapping[i][j]] == i
      {
        tileToProc := tileToProc[mapping[i][k] := i];
      }
      forall t | 0 <= t < tiles && owner[t] == i
        ensures tileToProc[t] == i
      {
        assert t in mapping[i];
      }
    }
  }

  /** Every process's spawner is on the tile behind the application's that has its number. */
  method AddSpawners(mapping: seq<TileList>, tiles: nat, ghost owner: seq<nat>, map0: seq<nat>)
    returns (lists: seq<TileList>, tileToProc: seq<nat>)
    requires Shares(mapping, tiles, owner) && |map0| >= tiles + |mapping| && map0[..tiles] == owner
    ensures |lists| == |mapping| && |tileToProc| == |map0|
    ensures tileToProc[..tiles + |mapping|] == owner + Numbers(|mapping|)
    ensures Shares(lists, tiles + |mapping|, owner + Numbers(|mapping|))
    ensures forall p :: 0 <= p < |mapping| ==> lists[p] == mapping[p] + [tiles + p]
  {
    hide Shares;
    lists, tileToProc := mapping, map0;
    assert owner + Numbers(0) == owner;
    for p := 0 to |mapping|
      invariant |lists| == |mapping| && |tileToProc| == |map0|
      invariant tileToProc[..tiles + p] == owner + Numbers(p)
      invariant Shares(lists, tiles + p, owner + Numbers(p))
      invariant forall q :: 0 <= q < |mapping| ==> lists[q] == if q < p then mapping[q] + [tiles + q] else mapping[q]
    {
      ShareOne(lists, tiles + p, owner + Numbers(p), p);
      lists := lists[p := lists[p] + [tiles + p]];
      tileToProc := tileToProc[tiles + p := p];
      assert owner + Numbers(p + 1) == (owner + Numbers(p)) + [p];
      assert tileToProc[..tiles + p + 1] == tileToProc[..tiles + p] + [p];
    }
  }

  ghost function Numbers(n: nat): seq<nat> {
    seq(n, i => i)
  }

  /** The tile map: the application's tiles as mapped, a thread spawner for every process, and
      the master's tile with process 0. */
  method GenerateTileMap(mapping: seq<TileList>, tiles: nat, ghost owner0: seq<nat>, full: bool)
    returns (lists: seq<TileList>, tileToProc: seq<nat>)
    requires mapping != [] && Shares(mapping, tiles, owner0)
    ensures |lists| == |mapping| && Shares(lists, tiles + (if full then |mapping| else 0) + 1, tileToProc)
    ensures tileToProc == owner0 + (if full then Numbers(|mapping|) else []) + [0]
    ensures forall p :: 0 <= p < |mapping| ==>
      lists[p] == mapping[p] + (if full then [tiles + p] else []) + (if p == 0 then [|tileToProc| - 1] else [])
  {
    var total := tiles + (if full then |mapping| else 0) + 1;
    tileToProc := MapApplicationTiles(mapping, tiles, total, owner0);
    lists := mapping;
    hide Shares;
    ghost var owner := owner0 + [];
    if full {
      lists, tileToProc := AddSpawners(mapping, tiles, owner0, tileToProc);
      owner := owner0 + Numbers(|mapping|);
    }
    ShareOne(lists, total - 1, owner, 0);
    lists := lists[0 := lists[0] + [total - 1]];
    tileToProc := tileToProc[total - 1 := 0];
    assert tileToProc == owner + [0];
  }

  /** The first index of a tile in a list, from `k` on, or -1. */
  function IndexFrom(list: TileList, tile: int, k: nat): (r: int)
    requires k <= |list|
    ensures r == -1 ==> forall j :: k <= j < |list| ==> list[j] != tile
    ensures r != -1 ==> k <= r < |list| && list[r] == tile
    decreases |list| - k
  {
    if k == |list| then -1 else if list[k] == tile then k else IndexFrom(list, tile, k + 1)
  }

  method GetIndexFromTileID(list: TileList, tile: int) returns (index: int)
    ensures index == IndexFrom(list, tile, 0)
  {
    for i := 0 to |list|
      invariant IndexFrom(list, tile, 0) == IndexFrom(list, tile, i)
    {
      if list[i] == tile {
        return i;
      }
    }
    return -1;
  }

  function TileIDFromIndex(list: TileList, index: int): int
    requires index >= 0
  {
    if index < |list| then list[index] else -1
  }

  /** Looking up the tile of an index and the index of a tile undo each other. */
  lemma {:induction false} LookupsAreInverse(lists: seq<TileList>, n: nat, owner: seq<nat>, i: nat)
    requires Shares(lists, n, owner) && i < |lists|
    ensures forall k :: 0 <= k < |lists[i]| ==> IndexFrom(lists[i], TileIDFromIndex(lists[i], k), 0) == k
    ensures forall t :: 0 <= t < n ==>
      var index := IndexFrom(lists[i], t, 0);
      if owner[t] == i then index >= 0 && TileIDFromIndex(lists[i], index) == t else index == -1
  {
    forall t | 0 <= t < n
      ensures (IndexFrom(lists[i], t, 0) != -1) == (owner[t] == i)
    {
      if owner[t] == i {
        assert t in lists[i];
      }
    }
  }

  // ----- stack windows -----

  ghost function TilesBefore(lists: seq<TileList>, p: nat): nat
    requires p <= |lists|
  {
    if p == 0 then 0 else TilesBefore(lists, p - 1) + |lists[p - 1]|
  }

  /** The layout of the stacks: base address, bytes per core, cores per tile, threads per core. */
  datatype Layout = Layout(base: nat, core: nat, cores: nat, threads: nat)

  ghost predicate LayoutOk(l: Layout) {
    l.core > 0 && l.cores > 0 && l.threads > 0
  }

  method StackLimits(lists: seq<TileList>, p: nat, l: Layout) returns (lower: nat, upper: nat)
    requires p < |lists|
    ensures lower == Lower(lists, p, l) && upper == Lower(lists, p + 1, l)
  {
    var before := 0;
    for i := 0 to p
      invariant before == TilesBefore(lists, i)
    {
      before := before + |lists[i]|;
    }
    lower := l.base + l.cores * before * l.core;
    upper := lower + l.cores * |lists[p]| * l.core;
    assert l.cores * (before + |lists[p]|) * l.core == l.cores * before * l.core + l.cores * |lists[p]| * l.core;
  }

  ghost function Lower(lists: seq<TileList>, p: nat, l: Layout): nat
    requires p <= |lists|
  {
    l.base + l.cores * TilesBefore(lists, p) * l.core
  }

  /** The start of the stack of thread `j` on the `k`-th tile above an address. */
  function WindowFrom(lower: nat, k: nat, j: nat, l: Layout): nat
    requires l.threads > 0
  {
    lower + k * l.cores * l.core + j * (l.core / l.threads)
  }

  /** The start of the stack of thread `j` on the `k`-th tile of process `p`. */
  ghost function WindowStart(lists: seq<TileList>, p: nat, k: nat, j: nat, l: Layout): nat
    requires p < |lists| && LayoutOk(l)
  {
    WindowFrom(Lower(lists, p, l), k, j, l)
  }

  /** The tile's place in the row of all tiles. */
  ghost function Place(lists: seq<TileList>, p: nat, k: nat): nat
    requires p < |lists|
  {
    TilesBefore(lists, p) + k
  }

  lemma {:induction false} BeforeMonotone(lists: seq<TileList>, p: nat, q: nat)
    requires p < q <= |lists|
    ensures TilesBefore(lists, p) + |lists[p]| <= TilesBefore(lists, q)
  {
    if p + 1 < q {
      BeforeMonotone(lists, p, q - 1);
    }
  }

  lemma {:induction false} PlacesDiffer(lists: seq<TileList>, p: nat, k: nat, q: nat, m: nat)
    requires p < |lists| && q < |lists| && k < |lists[p]| && m < |lists[q]| && (p != q || k != m)
    ensures Place(lists, p, k) != Place(lists, q, m)
  {
    if p < q {
      BeforeMonotone(lists, p, q);
    } else if q < p {
      BeforeMonotone(lists, q, p);
    }
  }

  /** A thread's window lies within its tile's share of the row. */
  lemma {:induction false} WindowWithin(lists: seq<TileList>, p: nat, k: nat, j: nat, l: Layout)
    requires p < |lists| && LayoutOk(l) && j < l.threads
    ensures var w, a := l.cores * l.core, WindowStart(lists, p, k, j, l);
      l.base + Place(lists, p, k) * w <= a && a + l.core / l.threads <= l.base + Place(lists, p, k) * w + w
  {
    DivBack(l.core, l.threads);
    WindowArithmetic(TilesBefore(lists, p), k, j, l.cores, l.core, l.threads, l.core / l.threads);
  }

  lemma {:induction false} WindowArithmetic(b: nat, k: nat, j: nat, cores: nat, core: nat, threads: nat, s: nat)
    requires j < threads && cores > 0 && threads * s <= core
    ensures cores * b * core + k * cores * core == (b + k) * (cores * core)
    ensures j * s + s <= cores * core
  {
    assert cores * b * core == b * (cores * core);
    assert k * cores * core == k * (cores * core);
    assert (b + k) * (cores * core) == b * (cores * core) + k * (cores * core);
    Apart(j, threads, s);
    Apart(0, cores, core);
  }

  lemma {:induction false} DivBack(x: nat, n: nat)
    requires n > 0
    ensures n * (x / n) <= x < n * (x / n) + n
  {
  }

  lemma {:induction false} Apart(g: nat, h: nat, w: nat)
    requires g < h
    ensures g * w + w <= h * w
  {
    if h > g + 1 {
      Apart(g, h - 1, w);
    }
    assert (h - 1) * w + w == h * w;
  }

  /** The stack windows of all threads on all tiles of all processes are disjoint. */
  lemma {:induction false} WindowsDisjoint(lists: seq<TileList>, l: Layout, p: nat, k: nat, j: nat, q: nat, m: nat,
      i: nat)
    requires LayoutOk(l) && p < |lists| && q < |lists| && k < |lists[p]| && m < |lists[q]| && j < l.threads
    requires i < l.threads
    requires p != q || k != m || j != i
    ensures var a, b, s := WindowStart(lists, p, k, j, l), WindowStart(lists, q, m, i, l), l.core / l.threads;
      a + s <= b || b + s <= a
  {
    var w, s := l.cores * l.core, l.core / l.threads;
    if p == q && k == m {
      if j < i {
        Apart(j, i, s);
      } else {
        Apart(i, j, s);
      }
    } else {
      PlacesDiffer(lists, p, k, q, m);
      WindowWithin(lists, p, k, j, l);
      WindowWithin(lists, q, m, i, l);
      if Place(lists, p, k) < Place(lists, q, m) {
        Apart(Place(lists, p, k), Place(lists, q, m), w);
      } else {
        Apart(Place(lists, q, m), Place(lists, p, k), w);
      }
    }
  }

  /** The tile of a stack pointer of process `p`, or -1. */
  function TileFromPointer(list: TileList, lower: nat, upper: nat, pointer: nat, l: Layout): int
    requires l.core > 0 && l.cores > 0
  {
    if pointer < lower || pointer > upper then -1
    else
      assert l.cores * l.core > 0;
      TileIDFromIndex(list, (pointer - lower) / (l.cores * l.core))
  }

  /** A pointer into a tile's stack is mapped back to that tile. */
  lemma {:induction false} PointerMapsBack(lists: seq<TileList>, l: Layout, p: nat, k: nat, offset: nat)
    requires LayoutOk(l) && p < |lists| && k < |lists[p]| && offset < l.cores * l.core
    ensures TileFromPointer(lists[p], Lower(lists, p, l), Lower(lists, p + 1, l),
      Lower(lists, p, l) + k * (l.cores * l.core) + offset, l)
      == lists[p][k]
  {
    var w, n, b := l.cores * l.core, |lists[p]|, TilesBefore(lists, p);
    Apart(k, n, w);
    assert Lower(lists, p + 1, l) == Lower(lists, p, l) + n * w by {
      assert l.cores * (b + n) * l.core == l.cores * b * l.core + n * (l.cores * l.core);
    }
    ModIs(k * w + offset, w, k, offset);
  }

  /** The start and size of the stack of a thread on a tile of process `p`; none if the tile is not
      one of its tiles, where the simulation stops. */
  method GetStackAttributes(lists: seq<TileList>, p: nat, tile: nat, thread: nat, l: Layout)
    returns (r: Option<(nat, nat)>)
    requires p < |lists| && LayoutOk(l)
    ensures r.Some? <==> tile in lists[p]
    ensures r.Some? ==>
      var k := IndexFrom(lists[p], tile, 0);
      0 <= k < |lists[p]| && lists[p][k] == tile
        && r.value == (WindowStart(lists, p, k, thread, l), l.core / l.threads)
  {
    var index := GetIndexFromTileID(lists[p], tile);
    if index == -1 {
      return None;
    }
    hide IndexFrom, Lower, WindowFrom;
    var lower, _ := StackLimits(lists, p, l);
    r := Some((WindowFrom(lower, index, thread, l), l.core / l.threads));
  }

  /** Every pointer into a thread's stack is mapped back to its tile. */
  lemma {:induction false} WindowMapsBack(lists: seq<TileList>, l: Layout, p: nat, k: nat, j: nat, o: nat)
    requires LayoutOk(l) && p < |lists| && k < |lists[p]| && j < l.threads && o < l.core / l.threads
    ensures TileFromPointer(lists[p], Lower(lists, p, l), Lower(lists, p + 1, l), WindowStart(lists, p, k, j, l) + o, l)
      == lists[p][k]
  {
    var s := l.core / l.threads;
    DivBack(l.core, l.threads);
    WindowArithmetic(0, k, j, l.cores, l.core, l.threads, s);
    PointerMapsBack(lists, l, p, k, j * s + o);
  }

  /** A number cut to a signed 32-bit one. */
  function Cut32(x: nat): int {
    if x % 0x1_0000_0000 < 0x8000_0000 then x % 0x1_0000_0000 else x % 0x1_0000_0000 - 0x1_0000_0000
  }

  /** The bytes of a thread's stack. */
  function StackSize(l: Layout): (s: nat)
    requires l.threads > 0
    ensures l.threads * s <= l.core && (l.core >= l.threads ==> s > 0)
  {
    DivBack(l.core, l.threads);
    l.core / l.threads
  }

  /** How many whole thread's stacks there are below an address. */
  ghost function WholeStacks(x: nat, l: Layout): (q: nat)
    requires l.threads > 0 && l.core >= l.threads
  {
    DivBack(x, StackSize(l));
    x / StackSize(l)
  }

  /** The thread of a stack pointer of process `p`, or -1. */
  function ThreadFromPointer(lower: nat, upper: nat, pointer: nat, l: Layout): int
    requires l.cores > 0 && l.threads > 0 && l.core >= l.threads
  {
    if pointer < lower || pointer > upper then -1
    else
      assert l.cores * l.core > 0;
      var index := (pointer - lower) / (l.cores * l.core);
      InTile(pointer, lower, l.cores * l.core);
      DivBack(pointer - index * (l.cores * l.core), StackSize(l));
      Cut32((pointer - index * (l.cores * l.core)) / StackSize(l))
  }

  lemma {:induction false} InTile(pointer: nat, lower: nat, w: nat)
    requires lower <= pointer && w > 0
    ensures (pointer - lower) / w * w <= pointer - lower
  {
  }

  lemma {:induction false} ThreadQuotient(x: nat, j: nat, s: nat)
    requires s > 0
    ensures (x + j * s) / s == j + x / s
  {
    var q, r := x / s, x % s;
    assert x == q * s + r;
    assert (j + q) * s == j * s + q * s;
    ModIs(x + j * s, s, j + q, r);
  }

  lemma {:induction false} LookupQuotient(low: nat, up: nat, l: Layout, k: nat, j: nat, o: nat, w: nat)
    requires l.cores > 0 && l.threads > 0 && l.core >= l.threads && w == l.cores * l.core
    requires j * StackSize(l) + o < w && low + k * w + (j * StackSize(l) + o) <= up
    ensures ThreadFromPointer(low, up, low + k * w + (j * StackSize(l) + o), l) == Cut32(j + WholeStacks(low + o, l))
  {
    hide Cut32, StackSize;
    ModIs(k * w + (j * StackSize(l) + o), w, k, j * StackSize(l) + o);
    ThreadQuotient(low + o, j, StackSize(l));
  }

  lemma {:induction false} WindowAt(lists: seq<TileList>, l: Layout, p: nat, k: nat, j: nat, o: nat, w: nat)
    requires LayoutOk(l) && l.core >= l.threads && w == l.cores * l.core
    requires p < |lists| && k < |lists[p]| && j < l.threads && o < StackSize(l)
    ensures j * StackSize(l) + o < w
    ensures WindowStart(lists, p, k, j, l) + o
      == Lower(lists, p, l) + k * w + (j * StackSize(l) + o) <= Lower(lists, p + 1, l)
  {
    WindowArithmetic(0, k, j, l.cores, l.core, l.threads, StackSize(l));
    Apart(k, |lists[p]|, w);
    NextLower(lists, p, l);
    hide Lower;
  }

  /** What the thread lookup makes of a pointer into a thread's stack. */
  lemma {:induction false} ThreadLookup(lists: seq<TileList>, l: Layout, p: nat, k: nat, j: nat, o: nat)
    requires LayoutOk(l) && l.core >= l.threads
    requires p < |lists| && k < |lists[p]| && j < l.threads && o < StackSize(l)
    ensures ThreadFromPointer(Lower(lists, p, l), Lower(lists, p + 1, l), WindowStart(lists, p, k, j, l) + o, l)
      == Cut32(j + WholeStacks(Lower(lists, p, l) + o, l))
  {
    hide Lower, WindowStart, ThreadFromPointer, Cut32, StackSize, WholeStacks;
    var w := l.cores * l.core;
    WindowAt(lists, l, p, k, j, o, w);
    LookupQuotient(Lower(lists, p, l), Lower(lists, p + 1, l), l, k, j, o, w);
  }

  /** A pointer into a thread's stack is mapped back to that thread exactly when the number of whole
      thread's stacks between address 0 and the same place in the process's first stack is a
      multiple of 2^32: the process's lower limit is not taken off. */
  lemma {:induction false} ThreadMapsBack(lists: seq<TileList>, l: Layout, p: nat, k: nat, j: nat, o: nat)
    requires LayoutOk(l) && l.core >= l.threads && j < 0x8000_0000
    requires p < |lists| && k < |lists[p]| && j < l.threads && o < StackSize(l)
    ensures ThreadFromPointer(Lower(lists, p, l), Lower(lists, p + 1, l), WindowStart(lists, p, k, j, l) + o, l) == j
      <==> WholeStacks(Lower(lists, p, l) + o, l) % 0x1_0000_0000 == 0
  {
    hide Lower, WindowStart, ThreadFromPointer, Cut32, StackSize, WholeStacks;
    ThreadLookup(lists, l, p, k, j, o);
    CutBack(j, WholeStacks(Lower(lists, p, l) + o, l));
  }

  lemma {:induction false} NextLower(lists: seq<TileList>, p: nat, l: Layout)
    requires p < |lists|
    ensures Lower(lists, p + 1, l) == Lower(lists, p, l) + |lists[p]| * (l.cores * l.core)
  {
    var b, n := TilesBefore(lists, p), |lists[p]|;
    assert l.cores * (b + n) * l.core == l.cores * b * l.core + n * (l.cores * l.core);
  }

  lemma {:induction false} CutBack(j: nat, q: nat)
    requires j < 0x8000_0000
    ensures Cut32(j + q) == j <==> q % 0x1_0000_0000 == 0
  {
  }

  /** With the stacks above the first thread's size, as they are, thread 0 is taken for another. */
  lemma {:induction false} ThreadMistaken(l: Layout)
    requires LayoutOk(l) && l.core >= l.threads && StackSize(l) <= l.base < 0x1_0000_0000
    ensures ThreadFromPointer(Lower([[7]], 0, l), Lower([[7]], 1, l), WindowStart([[7]], 0, 0, 0, l), l) != 0
  {
    assert TilesBefore([[7]], 0) == 0 && Lower([[7]], 0, l) == l.base;
    hide StackSize, ThreadFromPointer, WindowStart;
    ThreadMapsBack([[7]], l, 0, 0, 0, 0);
    QuotientBounds(l.base, StackSize(l));
  }

  lemma {:induction false} QuotientBounds(x: nat, s: nat)
    requires 0 < s <= x < 0x1_0000_0000
    ensures 0 < x / s < 0x1_0000_0000
  {
    assert x / s * s + x % s == x;
    if x / s >= 0x1_0000_0000 {
      Apart(0x1_0000_0000 - 1, x / s, s);
    }
  }

  // ----- the address space -----

  const TWO64: nat := 0x1_0000_0000_0000_0000
  const DYNAMIC: nat := 0xf000000000

  /** The bounds of the data, stack and dynamic segments. */
  datatype Bounds = Bounds(startData: nat, endData: nat, startStack: nat, endStack: nat, startDynamic: nat)

  ghost predicate BoundsOk(v: Bounds) {
    v.startData <= v.endData < v.startStack < v.endStack < v.startDynamic <= DYNAMIC
  }

  datatype Request = Brk(end: nat) | Mmap(length: nat)

  /** 64-bit subtraction. */
  function Minus(a: nat, b: nat): nat { (a - b) % TWO64 }

  /** The checks that stop the simulation when they fail. */
  predicate Granted(v: Bounds, r: Request) {
    match r
    case Brk(end) => end == 0 || (v.startData < end < v.startStack)
    case Mmap(length) => v.endStack < Minus(v.startDynamic, length)
  }

  function After(v: Bounds, r: Request): Bounds {
    match r
    case Brk(end) => if end == 0 then v else v.(endData := end)
    case Mmap(length) => v.(startDynamic := Minus(v.startDynamic, length))
  }

  class VMManager {
    var bounds: Bounds

    /** The stacks of all tiles lie above the data segment and below the dynamic one. */
    constructor (startData: nat, startStack: nat, tiles: nat, stackSize: nat)
      requires startData < startStack < startStack + tiles * stackSize < DYNAMIC
      ensures BoundsOk(bounds)
      ensures bounds == Bounds(startData, startData, startStack, startStack + tiles * stackSize, DYNAMIC)
    {
      bounds := Bounds(startData, startData, startStack, startStack + tiles * stackSize, DYNAMIC);
    }

    /** The end of the heap after the call; none if the simulation stops. */
    method DoBrk(end: nat) returns (r: Option<nat>)
      modifies this
      ensures r.Some? <==> old(Granted(bounds, Brk(end)))
      ensures bounds == if r.Some? then After(old(bounds), Brk(end)) else old(bounds)
      ensures r.Some? ==> r.value == bounds.endData && (end != 0 ==> r.value == end)
    {
      if end == 0 {
        return Some(bounds.endData);
      }
      if end <= bounds.startData || end >= bounds.startStack {
        return None;
      }
      bounds := bounds.(endData := end);
      return Some(bounds.endData);
    }

    /** The start of the new block; none if the simulation stops. */
    method DoMmap(length: nat) returns (r: Option<nat>)
      modifies this
      ensures r.Some? <==> old(Granted(bounds, Mmap(length)))
      ensures bounds == if r.Some? then After(old(bounds), Mmap(length)) else old(bounds)
      ensures r.Some? ==> r.value == bounds.startDynamic
    {
      if Minus(bounds.startDynamic, length) <= bounds.endStack {
        return None;
      }
      bounds := bounds.(startDynamic := Minus(bounds.startDynamic, length));
      return Some(bounds.startDynamic);
    }
  }

  /** The checks let through exactly what leaves the segments apart: an end of the heap above its
      start, and a block that fits above the stacks unless its length wraps around. */
  lemma {:induction false} GrantedExactly(v: Bounds, r: Request)
    requires BoundsOk(v)
    ensures r.Brk? ==> (Granted(v, r) <==> r.end == 0 || (v.startData < r.end && BoundsOk(v.(endData := r.end))))
    ensures r.Mmap? && r.length <= v.startDynamic ==>
      (Granted(v, r) <==> BoundsOk(v.(startDynamic := v.startDynamic - r.length)))
  {
  }

  /** A request that is granted and does not ask for more than there is below the dynamic segment. */
  ghost predicate Fair(v: Bounds, r: Request) {
    Granted(v, r) && (r.Mmap? ==> r.length <= v.startDynamic)
  }

  lemma {:induction false} AfterOk(v: Bounds, r: Request)
    requires BoundsOk(v) && Fair(v, r)
    ensures BoundsOk(After(v, r)) && After(v, r).endStack == v.endStack && After(v, r).startStack == v.startStack
    ensures r.Mmap? ==> After(v, r).startDynamic + r.length == v.startDynamic
  {
  }

  /** A mapped block ends where the last one began exactly when its length is at most the address
      of that place: the check itself lets a longer one through. */
  lemma {:induction false} MmapFits(v: Bounds, length: nat)
    requires BoundsOk(v) && Granted(v, Mmap(length))
    ensures After(v, Mmap(length)).startDynamic + length == v.startDynamic <==> length <= v.startDynamic
  {
  }

  lemma {:induction false} MmapWraps(v: Bounds)
    requires BoundsOk(v)
    ensures Granted(v, Mmap(v.startDynamic + 1)) && After(v, Mmap(v.startDynamic + 1)).startDynamic > v.startDynamic
  {
  }

  datatype Block = Block(start: nat, length: nat)

  /** The blocks that a run of requests maps. */
  ghost function Mapped(v: Bounds, rs: seq<Request>): seq<Block>
    decreases |rs|
  {
    if rs == [] then []
    else
      var w := After(v, rs[0]);
      (if rs[0].Mmap? then [Block(w.startDynamic, rs[0].length)] else []) + Mapped(w, rs[1..])
  }

  ghost predicate AllFair(v: Bounds, rs: seq<Request>)
    decreases |rs|
  {
    rs == [] || (Fair(v, rs[0]) && AllFair(After(v, rs[0]), rs[1..]))
  }

  ghost function Final(v: Bounds, rs: seq<Request>): Bounds
    decreases |rs|
  {
    if rs == [] then v else Final(After(v, rs[0]), rs[1..])
  }

  lemma {:induction false} MappedFirst(v: Bounds, rs: seq<Request>)
    requires rs != []
    ensures var rest, w := Mapped(After(v, rs[0]), rs[1..]), After(v, rs[0]);
      Mapped(v, rs) == if rs[0].Mmap? then [Block(w.startDynamic, rs[0].length)] + rest else rest
  {
  }

  /** The blocks lie one below the other between two addresses. */
  ghost predicate Stacked(bs: seq<Block>, low: nat, high: nat) {
    && (forall i :: 0 <= i < |bs| ==> low < bs[i].start && bs[i].start + bs[i].length <= high)
    && (forall i, j :: 0 <= i < j < |bs| ==> bs[j].start + bs[j].length <= bs[i].start)
  }

  lemma {:induction false} StackedMore(b: Block, bs: seq<Block>, low: nat, high: nat)
    requires Stacked(bs, low, b.start) && low < b.start && b.start + b.length <= high
    ensures Stacked([b] + bs, low, high)
  {
  }

  /** Where the heap ends after a run: where the last request that names an end put it. */
  ghost function HeapEnd(rs: seq<Request>, end: nat): nat {
    if rs == [] then end else HeapEnd(rs[1..], if rs[0].Brk? && rs[0].end != 0 then rs[0].end else end)
  }

  /** Over any run the mapped blocks lie one below the other above the stacks, the heap ends where
      it was last put, and stays below the stacks. */
  lemma {:induction false} BlocksApart(v: Bounds, rs: seq<Request>)
    requires BoundsOk(v) && AllFair(v, rs)
    ensures BoundsOk(Final(v, rs)) && Final(v, rs).endStack == v.endStack && Final(v, rs).startStack == v.startStack
    ensures Final(v, rs).startData == v.startData && Final(v, rs).endData == HeapEnd(rs, v.endData)
    ensures Stacked(Mapped(v, rs), v.endStack, v.startDynamic)
    decreases |rs|
  {
    if rs != [] {
      hide Stacked, Fair;
      AfterOk(v, rs[0]);
      BlocksApart(After(v, rs[0]), rs[1..]);
      MappedFirst(v, rs);
      if rs[0].Mmap? {
        StackedMore(Block(After(v, rs[0]).startDynamic, rs[0].length), Mapped(After(v, rs[0]), rs[1..]),
          v.endStack, v.startDynamic);
      }
    }
  }
}
