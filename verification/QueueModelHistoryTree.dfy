/** The history-tree queue model over the interval tree and its pool of nodes
    (common/shared_models/queue_models/queue_model_history_tree.cc), shown to serve requests
    exactly as `QueueHistory.Serve` does. */
module QueueModels {
  import opened TreeShapes
  import opened IntervalTrees
  import opened QueueHistory

  ghost function Spans(es: seq<Entry>): seq<Interval> {
    seq(|es|, i requires 0 <= i < |es| => es[i].interval)
  }

  /** The tree's keys are the starts of its intervals. */
  ghost predicate Keyed(es: seq<Entry>) {
    forall i :: 0 <= i < |es| ==> es[i].key == es[i].interval.first
  }

  /** Scanning nodes and scanning their intervals agree. */
  lemma {:induction false} HostIndex(m: Mem, q: seq<Node>, req: Interval)
    requires forall i :: 0 <= i < |q| ==> q[i] in m
    ensures |Data(m, q)| == |q|
    ensures var k := FitIndex(Spans(Data(m, q)), req);
      && -1 <= k < |q|
      && FirstHost(m, q, req) == if k < 0 then null else q[k]
  {
    DataAt(m, q);
    FitIndexIsFirst(Spans(Data(m, q)), req);
    if q != [] {
      HostIndex(m, q[1..], req);
      DataAt(m, q[1..]);
      assert Spans(Data(m, q))[1..] == Spans(Data(m, q[1..]));
    }
  }

  lemma {:induction false} SpansLength(es: seq<Entry>)
    ensures |Spans(es)| == |es| && forall i :: 0 <= i < |es| ==> Spans(es)[i] == es[i].interval
  {
  }

  lemma {:induction false} SpansConcat(a: seq<Entry>, b: seq<Entry>)
    ensures Spans(a + b) == Spans(a) + Spans(b)
  {
  }

  lemma {:induction false} DataConcat(m: Mem, a: seq<Node>, b: seq<Node>)
    ensures Data(m, a + b) == Data(m, a) + Data(m, b)
  {
    if a == [] {
      assert a + b == b;
    } else {
      assert (a + b)[1..] == a[1..] + b;
      DataConcat(m, a[1..], b);
    }
  }

  lemma {:induction false} FreeParts(f: seq<Interval>, g: seq<Interval>, minLen: nat)
    requires FreeList(f + g, minLen)
    ensures FreeList(f, minLen) && FreeList(g, minLen)
    ensures forall i, j :: 0 <= i < |f| && 0 <= j < |g| ==> f[i].second < g[j].first
  {
    var h := f + g;
    assert forall i :: 0 <= i < |f| ==> h[i] == f[i];
    assert forall j :: 0 <= j < |g| ==> h[|f| + j] == g[j];
  }

  /** A free list in the tree leaves the gaps that the search relies on. */
  lemma {:induction false} GapsFromFree(m: Mem, s: Shape, minLen: nat)
    requires Sorted(m, Inorder(s)) && FreeList(Spans(Data(m, Inorder(s))), minLen)
    ensures Gaps(m, s)
  {
    if s.Bin? {
      var l, r := Inorder(s.l), Inorder(s.r);
      RootOrder(m, s);
      DataConcat(m, l + [s.n], r);
      DataConcat(m, l, [s.n]);
      SpansConcat(Data(m, l + [s.n]), Data(m, r));
      SpansConcat(Data(m, l), Data(m, [s.n]));
      FreeParts(Spans(Data(m, l + [s.n])), Spans(Data(m, r)), minLen);
      FreeParts(Spans(Data(m, l)), Spans(Data(m, [s.n])), minLen);
      GapsFromFree(m, s.l, minLen);
      GapsFromFree(m, s.r, minLen);
      DataAt(m, l);
      DataAt(m, [s.n]);
      assert Spans(Data(m, [s.n]))[0] == m[s.n].interval;
      forall n | n in l
        ensures n in m && m[n].interval.second < m[s.n].interval.first
      {
        var i :| 0 <= i < |l| && l[i] == n;
        assert Spans(Data(m, l))[i] == m[n].interval;
      }
    }
  }

  ghost predicate KeysAscend(es: seq<Entry>) {
    forall i, j :: 0 <= i < j < |es| ==> es[i].key < es[j].key
  }

  lemma {:induction false} TreeKeysAscend(m: Mem, q: seq<Node>)
    requires Sorted(m, q)
    ensures |Data(m, q)| == |q| && KeysAscend(Data(m, q))
    ensures forall i :: 0 <= i < |q| ==> Data(m, q)[i] == Entry(m[q[i]].key, m[q[i]].interval)
    ensures forall i, j :: 0 <= i < |q| && 0 <= j < |q| && q[i] == q[j] ==> i == j
  {
    DataAt(m, q);
  }

  /** A key between two neighbours goes between them. */
  lemma {:induction false} InsertPlace(es: seq<Entry>, e: Entry, at: nat, k: nat)
    requires at <= |es| && KeysAscend(es[..at] + [e] + es[at..])
    requires k < |es| && es[k].key < e.key && (k + 1 < |es| ==> e.key < es[k + 1].key)
    ensures at == k + 1
  {
    var n := es[..at] + [e] + es[at..];
    assert n[at] == e;
    forall i | 0 <= i < at
      ensures es[i].key < e.key
    {
      assert n[i] == es[i];
    }
    forall i | at <= i < |es|
      ensures e.key < es[i].key
    {
      assert n[i + 1] == es[i];
    }
  }

  class QueueModelHistoryTree {
    const cfg: Config
    var tree: IntervalTree
    var pool: seq<Node>

    /** The tree and the pool share out the blocks, and the keys are the starts. */
    ghost predicate TreeValid()
      reads this, tree, tree.mem.Keys
    {
      && Usable(cfg) && tree.Valid() && Keyed(tree.Entries())
      && PoolValid() && |pool| + tree.size == cfg.maxSize
    }

    ghost predicate Valid()
      reads this, tree, tree.mem.Keys
    {
      TreeValid() && FreeList(Free(), cfg.minLen)
    }

    /** The blocks not in the tree. */
    ghost predicate PoolValid()
      reads this, tree
    {
      && (forall i :: 0 <= i < |pool| ==> pool[i] !in tree.mem)
      && (forall i, j :: 0 <= i < j < |pool| ==> pool[i] != pool[j])
    }

    ghost function Free(): seq<Interval>
      reads this, tree
    {
      Spans(tree.Entries())
    }

    ghost function Blocks(): set<Node?>
      reads this, tree
    {
      tree.mem.Keys + set n | n in pool
    }

    /** All time is free at first. */
    constructor (cfg: Config)
      requires Usable(cfg) && cfg.minLen < TWO64
      ensures Valid() && this.cfg == cfg && Free() == [Interval(0, TWO64 - 1)]
    {
      hide Inorder, Data, Sorted, Ok, Avl, Distinct, Nodes;
      var blocks: seq<Node> := [];
      for i := 0 to cfg.maxSize
        invariant |blocks| == i
        invariant forall j :: 0 <= j < |blocks| ==> fresh(blocks[j])
        invariant forall j, l :: 0 <= j < l < |blocks| ==> blocks[j] != blocks[l]
      {
        var block := new Node(Interval(0, 0));
        blocks := blocks + [block];
      }
      var node := new Node(Interval(0, TWO64 - 1));
      this.cfg := cfg;
      tree := new IntervalTree(node);
      pool := blocks[..cfg.maxSize - 1];
    }

    method AllocateNode(i: Interval) returns (node: Node)
      requires |pool| > 0
      modifies this`pool, pool[|pool| - 1]
      ensures node == old(pool)[|old(pool)| - 1] && pool == old(pool)[..|old(pool)| - 1]
      ensures node.Image() == Rec(null, null, null, 1, i.first, i)
    {
      node := pool[|pool| - 1];
      node.parent, node.left, node.right := null, null, null;
      node.height := 1;
      node.key := i.first;
      node.interval := i;
      pool := pool[..|pool| - 1];
    }

    /** The search, seen from the free list. */
    method FindFit(req: Interval) returns (n: Node?, ghost k: int)
      requires Valid() && req.first <= req.second
      ensures k == FitIndex(Free(), req) && -1 <= k < |Free()| && (n == null <==> k < 0)
      ensures |Free()| == |Inorder(tree.shape)|
      ensures k >= 0 ==> n in tree.mem && n == Inorder(tree.shape)[k] && n.interval == Free()[k]
    {
      hide Gaps, SearchIn, FirstHost, Ok, Avl, Distinct, FreeList, FitIndex;
      GapsFromFree(tree.mem, tree.shape, cfg.minLen);
      SearchIsFirstFit(tree.mem, tree.shape, req);
      HostIndex(tree.mem, Inorder(tree.shape), req);
      TreeKeysAscend(tree.mem, Inorder(tree.shape));
      k := FitIndex(Free(), req);
      n := tree.Search(req);
    }

    /** Takes an interval off the free list and its block back into the pool. */
    method Drop(node: Node, ghost k: nat)
      requires Valid() && k < |Inorder(tree.shape)| && node == Inorder(tree.shape)[k]
      modifies this`pool, tree, tree.mem.Keys
      ensures Valid() && tree == old(tree) && k < |old(Free())| && Free() == Without(old(Free()), k)
      ensures Blocks() == old(Blocks()) && |pool| == |old(pool)| + 1
    {
      hide Inorder, Data, Ok, Avl, Distinct, Nodes, Without, FreeList, Spans, Keyed, KeysAscend;
      TreeKeysAscend(tree.mem, Inorder(tree.shape));
      ghost var es := tree.Entries();
      SpansLength(es);
      var removed;
      ghost var at;
      removed, at := tree.Remove(node);
      assert at == k;
      pool := pool + [removed];
      DropKeepsFree(es, k, cfg.minLen);
    }

    /** Gives an interval of the free list new ends inside the old ones. */
    method Shrink(node: Node, i: Interval, ghost k: nat)
      requires Valid() && k < |Inorder(tree.shape)| && node == Inorder(tree.shape)[k]
      requires |Free()| == |Inorder(tree.shape)| && Free()[k].first <= i.first && i.second <= Free()[k].second
      requires i.first + cfg.minLen <= i.second
      modifies tree, tree.mem.Keys
      ensures Valid() && tree == old(tree) && k < |old(Free())| && Free() == old(Free())[k := i]
      ensures Blocks() == old(Blocks())
    {
      hide Inorder, Data, Ok, Avl, Distinct, Nodes;
      TreeKeysAscend(tree.mem, Inorder(tree.shape));
      ghost var es := tree.Entries();
      ShrinkKeepsFree(es, k, i, cfg.minLen);
      tree.Reshape(node, i.first, i, k);
    }

    /** Puts a block of the pool into the tree. */
    method AddBlock(i: Interval) returns (ghost at: nat)
      requires tree.Valid() && tree.root != null && PoolValid() && |pool| > 0
      requires forall e :: e in tree.Entries() ==> e.key != i.first
      modifies this`pool, tree, tree.mem.Keys, set n | n in pool
      ensures tree == old(tree) && tree.Valid() && PoolValid() && Blocks() == old(Blocks())
      ensures |pool| == |old(pool)| - 1 && tree.size == old(tree.size) + 1
      ensures tree.mem.Keys == old(tree.mem.Keys + {pool[|pool| - 1]})
      ensures at <= |old(tree.Entries())| && at <= |old(Inorder(tree.shape))|
      ensures tree.Entries() == old(tree.Entries())[..at] + [Entry(i.first, i)] + old(tree.Entries())[at..]
      ensures Inorder(tree.shape) ==
        old(Inorder(tree.shape))[..at] + [old(pool[|pool| - 1])] + old(Inorder(tree.shape))[at..]
    {
      hide Inorder, Data, Ok, Avl, Distinct, Nodes, Sorted;
      var next := AllocateNode(i);
      var ok;
      ok, at := tree.Insert(next);
    }

    /** Puts a block right after another one, between whose key and the next the new key lies. */
    method AddAfter(node: Node, i: Interval, ghost k: nat)
      requires tree.Valid() && PoolValid() && |pool| > 0
      requires k < |Inorder(tree.shape)| && node == Inorder(tree.shape)[k] && |tree.Entries()| == |Inorder(tree.shape)|
      requires forall e :: e in tree.Entries() ==> e.key != i.first
      requires tree.Entries()[k].key < i.first && (k + 1 < |tree.Entries()| ==> i.first < tree.Entries()[k + 1].key)
      modifies this`pool, tree, tree.mem.Keys, set n | n in pool
      ensures tree == old(tree) && tree.Valid() && PoolValid() && Blocks() == old(Blocks())
      ensures |pool| == |old(pool)| - 1 && tree.size == old(tree.size) + 1
      ensures tree.Entries() == Inserted(old(tree.Entries()), k, i.first, i.second)
      ensures node in tree.mem && k < |Inorder(tree.shape)| && Inorder(tree.shape)[k] == node
      ensures Entry(node.key, node.interval) == old(tree.Entries())[k]
      ensures forall j :: 0 <= j < k ==> tree.mem[Inorder(tree.shape)[j]].key < node.key
      ensures forall j :: k < j < |Inorder(tree.shape)| ==> node.key < tree.mem[Inorder(tree.shape)[j]].key
    {
      hide Inorder, Data, Ok, Avl, Distinct, Nodes, KeysAscend;
      TreeKeysAscend(tree.mem, Inorder(tree.shape));
      ghost var es := tree.Entries();
      tree.NonEmpty(k);
      ghost var at := AddBlock(i);
      TreeKeysAscend(tree.mem, Inorder(tree.shape));
      InsertPlace(es, Entry(i.first, i), at, k);
    }

    /** Books the middle of an interval: a new block takes the part after it. */
    method Split(node: Node, r: Request, ghost k: nat)
      requires Valid() && k < |Inorder(tree.shape)| && node == Inorder(tree.shape)[k] && |pool| > 0
      requires |Free()| == |Inorder(tree.shape)| && node in tree.mem && node.interval == Free()[k] && InRange(r)
      requires Free()[k].first + cfg.minLen <= r.time && r.time + r.length + cfg.minLen <= Free()[k].second
      modifies this`pool, tree, tree.mem.Keys, set n | n in pool
      ensures TreeValid() && tree == old(tree) && k < |old(Free())| && CanHost(old(Free())[k], Wanted(r))
      ensures Free() == Book(old(Free()), k, r, cfg.minLen) && Blocks() == old(Blocks())
    {
      hide Inorder, Data, Ok, Avl, Distinct, Nodes, Sorted, KeysAscend, Spans, Keyed, FreeList, Book, Inserted;
      hide CanHost, InRange, Wanted;
      TreeKeysAscend(tree.mem, Inorder(tree.shape));
      ghost var es := tree.Entries();
      SpansLength(es);
      SplitSpans(es, k, r, cfg.minLen);
      SplitKeys(es, k, r.time, r.time + r.length, cfg.minLen);
      AddAfter(node, Interval(r.time + r.length, node.interval.second), k);
      CutShort(node, r.time, k);
    }

    /** Ends an interval earlier. */
    method CutShort(node: Node, end: UInt64, ghost k: nat)
      requires tree.Valid() && PoolValid() && node in tree.mem && k < |Inorder(tree.shape)|
      requires Inorder(tree.shape)[k] == node
      requires forall j :: 0 <= j < k ==> tree.mem[Inorder(tree.shape)[j]].key < node.key
      requires forall j :: k < j < |Inorder(tree.shape)| ==> node.key < tree.mem[Inorder(tree.shape)[j]].key
      modifies tree`mem, node
      ensures tree.Valid() && PoolValid() && Blocks() == old(Blocks()) && tree.size == old(tree.size)
      ensures k < |old(tree.Entries())|
      ensures tree.Entries() == old(tree.Entries())[k := old(Entry(node.key, Interval(node.interval.first, end)))]
    {
      hide Inorder, Data, Ok, Avl, Distinct, Nodes, Sorted;
      tree.Reshape(node, node.key, Interval(node.interval.first, end), k);
    }

    /** Takes the request's window out of the interval that hosts it. */
    method BookIn(node: Node, r: Request, ghost k: nat) returns (delay: UInt64)
      requires Valid() && k < |Inorder(tree.shape)| && node == Inorder(tree.shape)[k] && |pool| > 0
      requires |Free()| == |Inorder(tree.shape)| && node in tree.mem && node.interval == Free()[k]
      requires InRange(r) && CanHost(Free()[k], Wanted(r))
      modifies this`pool, tree, tree.mem.Keys, set n | n in pool
      ensures TreeValid() && tree == old(tree) && k < |old(Free())| && Blocks() == old(Blocks())
      ensures Free() == Book(old(Free()), k, r, cfg.minLen)
      ensures r.time + delay == Start(old(Free())[k], r)
    {
      hide Inorder, Data, Ok, Avl, Distinct, Nodes, Sorted, Spans, Keyed, FreeList, Book, Without;
      BookCases(Free(), k, r, cfg.minLen);
      var i := node.interval;
      if r.time >= i.first {
        delay := 0;
        if r.time - i.first >= cfg.minLen {
          if i.second - (r.time + r.length) >= cfg.minLen {
            Split(node, r, k);
          } else {
            Shrink(node, Interval(i.first, r.time), k);
          }
        } else if i.second - (r.time + r.length) >= cfg.minLen {
          Shrink(node, Interval(r.time + r.length, i.second), k);
        } else {
          Drop(node, k);
        }
      } else {
        delay := i.first - r.time;
        if i.second - (i.first + r.length) >= cfg.minLen {
          Shrink(node, Interval(i.first + r.length, i.second), k);
        } else {
          Drop(node, k);
        }
      }
    }

    /** Drops the earliest interval when the tree has reached its limit. */
    method Prune()
      requires Valid()
      modifies this`pool, tree, tree.mem.Keys
      ensures Valid() && tree == old(tree) && Blocks() == old(Blocks())
      ensures Free() == if old(|Free()|) < cfg.maxSize then old(Free()) else old(Free())[1..]
      ensures |pool| > 0
    {
      hide Inorder, Data, Ok, Avl, Distinct, Nodes, Sorted, Spans, Keyed, FreeList, FitIndex;
      ghost var f := Free();
      EarliestFits(Free(), cfg);
      var first, k := FindFit(Interval(0, 1));
      if tree.size >= cfg.maxSize {
        Drop(first, k);
        assert Without(f, 0) == f[1..];
      }
    }

    /** Books the request in the first interval with room for it, if there is one. */
    method BookFirstFit(r: Request) returns (delay: UInt64, out: Outcome)
      requires Valid() && InRange(r) && |pool| > 0
      modifies this`pool, tree, tree.mem.Keys, set n | n in pool
      ensures TreeValid() && tree == old(tree) && Blocks() == old(Blocks())
      ensures var f, k := old(Free()), FitIndex(old(Free()), Wanted(r));
        if k < 0 then Free() == f && out == NoRoom
        else
          && k < |f| && CanHost(f[k], Wanted(r)) && Free() == Book(f, k, r, cfg.minLen)
          && out == Booked(Start(f[k], r)) && r.time + delay == Start(f[k], r)
    {
      hide Inorder, Data, Ok, Avl, Distinct, Nodes, Sorted, Spans, Keyed, FreeList, FitIndex, Book;
      FitIndexIsFirst(Free(), Wanted(r));
      var node, k := FindFit(Interval(r.time, r.time + r.length));
      if node == null {
        delay, out := 0, NoRoom;
      } else {
        delay := BookIn(node, r, k);
        out := Booked(r.time + delay);
      }
    }

    /** One request: where the tree books it and how long it waits.  The analytical model's delay
        is given by the caller; `NoRoom` stands for the source's failed assertion. */
    method ComputeQueueDelay(r: Request, analytical: UInt64) returns (delay: UInt64, out: Outcome)
      requires Valid() && InRange(r)
      modifies this`pool, tree, tree.mem.Keys, set n | n in pool
      ensures TreeValid() && tree == old(tree) && Blocks() == old(Blocks())
      ensures r.length >= 1 || !out.Booked? ==> Valid()
      ensures (Free(), out) == Serve(old(Free()), r, cfg)
      ensures out.Booked? ==> r.time + delay == out.start
      ensures out.Analytical? ==> delay == analytical
    {
      hide Inorder, Data, Ok, Avl, Distinct, Nodes, Sorted, Spans, Keyed, FreeList, FitIndex, Book,
        Pruned, CanHost, Start;
      ServeKeepsFree(Free(), r, cfg);
      PrunedIs(Free(), cfg);
      Prune();
      EarliestFits(Free(), cfg);
      FitIndexIsFirst(Free(), Wanted(r));
      var first, _ := FindFit(Interval(0, 1));
      if first == null {
        delay, out := 0, NoRoom;
      } else if cfg.analytical && first.interval.first > r.time + r.length {
        delay, out := analytical, Analytical;
      } else {
        delay, out := BookFirstFit(r);
      }
    }
  }

  /** Booking at an end of an interval shrinks it or uses it up. */
  lemma {:induction false} BookCases(f: seq<Interval>, k: nat, r: Request, minLen: nat)
    requires k < |f| && InRange(r) && CanHost(f[k], Wanted(r))
    ensures var i, end := f[k], Start(f[k], r) + r.length;
      var head, tail := r.time >= i.first && r.time - i.first >= minLen, i.second - end >= minLen;
      && (head && !tail ==> Book(f, k, r, minLen) == f[k := Interval(i.first, r.time)])
      && (!head && tail ==> Book(f, k, r, minLen) == f[k := Interval(end, i.second)])
      && (!head && !tail ==> Book(f, k, r, minLen) == Without(f, k))
  {
  }

  /** A search for any unit of time finds the earliest interval. */
  lemma {:induction false} EarliestFits(f: seq<Interval>, c: Config)
    requires FreeList(f, c.minLen) && Usable(c)
    ensures FitIndex(f, Interval(0, 1)) == if f == [] then -1 else 0
  {
  }

  /** The entries after splitting off the part of interval `k` that starts at `end`. */
  ghost function Inserted(es: seq<Entry>, k: nat, end: UInt64, second: UInt64): seq<Entry>
    requires k < |es|
  {
    es[..k + 1] + [Entry(end, Interval(end, second))] + es[k + 1..]
  }

  lemma {:induction false} SplitKeys(es: seq<Entry>, k: nat, t: UInt64, end: UInt64, minLen: nat)
    requires k < |es| && Keyed(es) && FreeList(Spans(es), minLen) && minLen >= 1
    requires t <= end && es[k].interval.first + minLen <= t && end + minLen <= es[k].interval.second
    ensures forall e :: e in es ==> e.key != end
    ensures es[k].key < end && (k + 1 < |es| ==> end < es[k + 1].key)
  {
    var f := Spans(es);
    assert forall j :: 0 <= j < |es| ==> f[j] == es[j].interval;
    forall j | 0 <= j < |es|
      ensures es[j].key != end
    {
      assert j < k ==> f[j].second < f[k].first;
      assert k < j ==> f[k].second < f[j].first;
    }
  }

  lemma {:induction false} SplitSpans(es: seq<Entry>, k: nat, r: Request, minLen: nat)
    requires k < |es| && Keyed(es) && FreeList(Spans(es), minLen) && InRange(r)
    requires es[k].interval.first + minLen <= r.time && r.time + r.length + minLen <= es[k].interval.second
    ensures |Spans(es)| == |es| && r.time <= r.time + r.length < TWO64 && CanHost(Spans(es)[k], Wanted(r))
    ensures var i := es[k].interval;
      var new' := Inserted(es, k, r.time + r.length, i.second)[k := Entry(es[k].key, Interval(i.first, r.time))];
      Keyed(new') && Spans(new') == Book(Spans(es), k, r, minLen)
  {
    hide FreeList;
    var i := es[k].interval;
    var mid := [Interval(i.first, r.time), Interval(r.time + r.length, i.second)];
    var new' := Inserted(es, k, r.time + r.length, i.second)[k := Entry(es[k].key, Interval(i.first, r.time))];
    assert Rest(i, r, minLen) == mid;
    assert new' == es[..k] + [Entry(es[k].key, mid[0]), Entry(r.time + r.length, mid[1])] + es[k + 1..];
    assert Spans(new') == Spans(es)[..k] + mid + Spans(es)[k + 1..];
  }

  lemma {:induction false} ShrinkKeepsFree(es: seq<Entry>, k: nat, i: Interval, minLen: nat)
    requires k < |es| && Keyed(es) && FreeList(Spans(es), minLen) && KeysAscend(es)
    requires es[k].interval.first <= i.first && i.second <= es[k].interval.second && i.first + minLen <= i.second
    ensures Spans(es[k := Entry(i.first, i)]) == Spans(es)[k := i]
    ensures Keyed(es[k := Entry(i.first, i)]) && FreeList(Spans(es)[k := i], minLen)
    ensures forall j :: 0 <= j < k ==> es[j].key < i.first
    ensures forall j :: k < j < |es| ==> i.first < es[j].key
  {
    assert forall j :: 0 <= j < |es| ==> Spans(es)[j] == es[j].interval;
  }

  lemma {:induction false} DropKeepsFree(es: seq<Entry>, k: nat, minLen: nat)
    requires k < |es| && Keyed(es) && FreeList(Spans(es), minLen)
    ensures Spans(Without(es, k)) == Without(Spans(es), k)
    ensures Keyed(Without(es, k)) && FreeList(Without(Spans(es), k), minLen)
  {
    var g := Without(Spans(es), k);
    assert forall i :: 0 <= i < |g| ==> g[i] == Spans(es)[if i < k then i else i + 1];
    assert forall i :: 0 <= i < |g| ==> Without(es, k)[i] == es[if i < k then i else i + 1];
  }
}
