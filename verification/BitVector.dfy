/** The bit set with its search for the next member (common/misc/bit_vector.cc). */
module BitVectors {
  // ----- words -----

  /** Bit `i` of a word. */
  function Bit(w: nat, i: nat): bool {
    if i == 0 then w % 2 == 1 else Bit(w / 2, i - 1)
  }

  /** The word moved right by `k` bits. */
  function Shift(w: nat, k: nat): nat {
    if k == 0 then w else Shift(w / 2, k - 1)
  }

  /** The word's `k` low bits. */
  function Low(w: nat, k: nat): nat {
    if k == 0 then 0 else w % 2 + 2 * Low(w / 2, k - 1)
  }

  /** The word with bit `i` set or cleared. */
  function WithBit(w: nat, i: nat, b: bool): nat {
    if i == 0 then w / 2 * 2 + (if b then 1 else 0) else w % 2 + 2 * WithBit(w / 2, i - 1, b)
  }

  lemma {:induction false} BitOfShift(w: nat, k: nat, i: nat)
    ensures Bit(Shift(w, k), i) == Bit(w, k + i)
  {
    if k > 0 {
      BitOfShift(w / 2, k - 1, i);
    }
  }

  lemma {:induction false} BitOfLow(w: nat, k: nat, i: nat)
    ensures Bit(Low(w, k), i) == (i < k && Bit(w, i))
    decreases k
  {
    if k == 0 {
      ZeroHasNone(i);
    } else if i > 0 {
      assert Low(w, k) / 2 == Low(w / 2, k - 1);
      BitOfLow(w / 2, k - 1, i - 1);
    }
  }

  lemma {:induction false} ZeroHasNone(i: nat)
    ensures !Bit(0, i)
  {
    if i > 0 {
      ZeroHasNone(i - 1);
    }
  }

  lemma {:induction false} BitOfWith(w: nat, i: nat, b: bool, j: nat)
    ensures Bit(WithBit(w, i, b), j) == if j == i then b else Bit(w, j)
    decreases i
  {
    var x := WithBit(w, i, b);
    if i == 0 {
      assert x / 2 == w / 2 && x % 2 == if b then 1 else 0;
    } else {
      assert x / 2 == WithBit(w / 2, i - 1, b) && x % 2 == w % 2;
      if j > 0 {
        BitOfWith(w / 2, i - 1, b, j - 1);
      }
    }
  }

  // ----- the search inside a word -----

  /** `r` is the first position after `last` of a set bit among `width` bits at `base`, or -1. */
  ghost predicate FirstAfter(w: nat, width: nat, base: nat, last: int, r: int) {
    if r == -1 then forall i :: 0 <= i < width && Bit(w, i) ==> base + i <= last
    else
      && base <= r < base + width && r > last && Bit(w, r - base)
      && forall i :: 0 <= i < r - base && Bit(w, i) ==> base + i <= last
  }

  lemma {:induction false} ZeroHasFirst(width: nat, base: nat, last: int)
    ensures FirstAfter(0, width, base, last, -1)
  {
    forall i | 0 <= i < width
      ensures !Bit(0, i)
    {
      ZeroHasNone(i);
    }
  }

  /** The first bit of two halves. */
  lemma {:induction false} FirstOfHalves(w: nat, half: nat, base: nat, last: int, low: int, high: int)
    requires FirstAfter(Low(w, half), half, base, last, low)
    requires low == -1 ==> FirstAfter(Shift(w, half), half, base + half, last, high)
    ensures FirstAfter(w, 2 * half, base, last, if low != -1 then low else high)
  {
    forall i | 0 <= i < half
      ensures Bit(Low(w, half), i) == Bit(w, i) && Bit(Shift(w, half), i) == Bit(w, half + i)
    {
      BitOfLow(w, half, i);
      BitOfShift(w, half, i);
    }
    var r := if low != -1 then low else high;
    forall i | 0 <= i < (if r == -1 then 2 * half else r - base) && Bit(w, i)
      ensures base + i <= last
    {
      if i >= half {
        assert Bit(Shift(w, half), i - half) == Bit(w, half + (i - half));
      }
    }
    if low == -1 && high != -1 {
      assert Bit(Shift(w, half), high - (base + half)) == Bit(w, half + (high - (base + half)));
    }
  }

  /** Scans a byte bit by bit, and a wider word half by half, skipping what is zero. */
  method Scan(w: nat, width: nat, base: nat, last: int) returns (r: int)
    requires last >= -1 && width in {8, 16, 32, 64}
    ensures FirstAfter(w, width, base, last, r)
    decreases width
  {
    if w == 0 {
      ZeroHasFirst(width, base, last);
      return -1;
    }
    if width == 8 {
      for l := 0 to 8
        invariant forall i :: 0 <= i < l && Bit(w, i) ==> base + i <= last
      {
        if Bit(w, l) && base + l > last {
          return base + l;
        }
      }
      return -1;
    }
    var half := width / 2;
    var low := Scan(Low(w, half), half, base, last);
    if low != -1 {
      FirstOfHalves(w, half, base, last, low, -1);
      return low;
    }
    r := Scan(Shift(w, half), half, base + half, last);
    FirstOfHalves(w, half, base, last, low, r);
  }

  // ----- the bit set -----

  /** The positions of the set bits. */
  ghost function Members(words: seq<nat>): set<int> {
    set p | 0 <= p < 64 * |words| && Bit(words[p / 64], p % 64)
  }

  lemma {:induction false} MembersWith(words: seq<nat>, p: nat, b: bool)
    requires p < 64 * |words|
    ensures Members(words[p / 64 := WithBit(words[p / 64], p % 64, b)]) ==
      if b then Members(words) + {p} else Members(words) - {p}
  {
    var new' := words[p / 64 := WithBit(words[p / 64], p % 64, b)];
    forall q | 0 <= q < 64 * |words|
      ensures Bit(new'[q / 64], q % 64) == if q == p then b else Bit(words[q / 64], q % 64)
    {
      BitOfWith(words[p / 64], p % 64, b, q % 64);
    }
  }

  /** The least member after `last`, or -1. */
  ghost predicate IsNext(s: set<int>, last: int, r: int) {
    if r == -1 then forall p :: p in s ==> p <= last
    else r in s && r > last && forall p :: p in s && p > last ==> r <= p
  }

  class BitVector {
    const capacity: nat
    var size: nat
    var last: int
    var words: seq<nat>

    ghost predicate Valid()
      reads this
    {
      && |words| == (capacity + 63) / 64 && -1 <= last < capacity && size == |Members(words)|
      && forall p :: p in Members(words) ==> p < capacity
    }

    constructor (bits: nat)
      ensures Valid() && capacity == bits && Members(words) == {} && last == -1
    {
      capacity, size, last := bits, 0, -1;
      words := seq((bits + 63) / 64, _ => 0);
      new;
      NoneSet(words);
    }

    method Reset()
      requires Valid()
      modifies this
      ensures Valid() && Members(words) == {} && last == -1
    {
      for i := 0 to |words|
        invariant |words| == |old(words)| && forall k :: 0 <= k < i ==> words[k] == 0
      {
        words := words[i := 0];
      }
      size, last := 0, -1;
      NoneSet(words);
    }

    method ResetFind() returns (r: bool)
      requires Valid()
      modifies this`last
      ensures Valid() && last == -1 && r
    {
      last := -1;
      return true;
    }

    method At(bit: nat) returns (r: bool)
      requires Valid() && bit < capacity
      ensures r <==> bit in Members(words)
    {
      return Bit(words[bit / 64], bit % 64);
    }

    method Set(bit: nat)
      requires Valid() && bit < capacity
      modifies this`words, this`size
      ensures Valid() && Members(words) == old(Members(words)) + {bit}
    {
      var already := At(bit);
      if !already {
        MembersWith(words, bit, true);
        words := words[bit / 64 := WithBit(words[bit / 64], bit % 64, true)];
        size := size + 1;
      }
    }

    method Clear(bit: nat)
      requires Valid() && bit < capacity
      modifies this`words, this`size
      ensures Valid() && Members(words) == old(Members(words)) - {bit}
    {
      var there := At(bit);
      if there {
        MembersWith(words, bit, false);
        words := words[bit / 64 := WithBit(words[bit / 64], bit % 64, false)];
        size := size - 1;
      }
    }

    /** Finds the next member after the one found last, and starts over after the last one. */
    method Find() returns (r: int)
      requires Valid()
      modifies this`last
      ensures Valid() && IsNext(Members(words), old(last), r) && last == r
    {
      var windex := if last == -1 then 0 else last / 64;
      while windex < |words|
        invariant 0 <= windex <= |words| && last == old(last)
        invariant forall p :: p in Members(words) && p < 64 * windex ==> p <= last
      {
        var found := Scan(words[windex], 64, 64 * windex, last);
        WordFirst(words, windex, last, found);
        if found != -1 {
          last := found;
          return found;
        }
        windex := windex + 1;
      }
      last := -1;
      return -1;
    }

    /** Calling find from the start until it fails goes through the members in order. */
    method Enumerate() returns (found: seq<int>)
      requires Valid()
      modifies this`last
      ensures Valid() && last == -1
      ensures (set p | p in found) == Members(words)
      ensures forall i, j :: 0 <= i < j < |found| ==> found[i] < found[j]
    {
      var _ := ResetFind();
      found := [];
      var p := Find();
      while p != -1
        invariant Valid() && last == p
        invariant forall i, j :: 0 <= i < j < |found| ==> found[i] < found[j]
        invariant forall i :: 0 <= i < |found| ==> found[i] in Members(words) && (p == -1 || found[i] < p)
        invariant forall q :: q in Members(words) && (p == -1 || q < p) ==> q in found
        invariant p != -1 ==> p in Members(words)
        decreases if p == -1 then 0 else capacity + 1 - p
      {
        ghost var before := found;
        found := found + [p];
        assert forall q :: q in found <==> q in before || q == p;
        p := Find();
      }
    }
  }

  lemma {:induction false} NoneSet(words: seq<nat>)
    requires forall k :: 0 <= k < |words| ==> words[k] == 0
    ensures Members(words) == {}
  {
    forall p | 0 <= p < 64 * |words|
      ensures !Bit(words[p / 64], p % 64)
    {
      ZeroHasNone(p % 64);
    }
  }

  /** What the scan of one word means for the whole set. */
  lemma {:induction false} WordFirst(words: seq<nat>, windex: nat, last: int, r: int)
    requires windex < |words| && last >= -1 && FirstAfter(words[windex], 64, 64 * windex, last, r)
    ensures r == -1 ==> forall p :: p in Members(words) && 64 * windex <= p < 64 * windex + 64 ==> p <= last
    ensures r != -1 ==> r in Members(words) && r > last
    ensures r != -1 ==> forall p :: p in Members(words) && 64 * windex <= p < r ==> p <= last
  {
    forall p | 64 * windex <= p < 64 * windex + 64
      ensures p / 64 == windex && p % 64 == p - 64 * windex
    {
    }
  }
}
