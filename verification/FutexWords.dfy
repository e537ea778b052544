/** The 32-bit words on which futexes wait, and the operations that FUTEX_WAKE_OP encodes in one of
    them (common/system/syscall_server.cc). */
module FutexWords {
  import opened BitVectors
  import opened Options

  const TWO32 := 0x1_0000_0000

  type Int32 = w: int | -0x8000_0000 <= w < 0x8000_0000

  /** A word's bits as a number, in two's complement. */
  function Unsigned(w: Int32): (u: nat)
    ensures u < TWO32
  {
    if w < 0 then w + TWO32 else w
  }

  function Signed(u: nat): (w: Int32)
    requires u < TWO32
    ensures Unsigned(w) == u
  {
    if u >= 0x8000_0000 then u - TWO32 else u
  }

  datatype Logic = Or | AndNot | Xor

  predicate Applied(f: Logic, p: bool, q: bool) {
    match f
    case Or => p || q
    case AndNot => p && !q
    case Xor => p != q
  }

  /** Two words of `n` bits combined bit by bit. */
  function Combined(f: Logic, a: nat, b: nat, n: nat): nat {
    if n == 0 then 0
    else (if Applied(f, a % 2 == 1, b % 2 == 1) then 1 else 0) + 2 * Combined(f, a / 2, b / 2, n - 1)
  }

  ghost function Pow2(n: nat): nat {
    if n == 0 then 1 else 2 * Pow2(n - 1)
  }

  lemma {:induction false} CombinedBound(f: Logic, a: nat, b: nat, n: nat)
    ensures Combined(f, a, b, n) < Pow2(n)
  {
    if n > 0 {
      CombinedBound(f, a / 2, b / 2, n - 1);
    }
  }

  lemma {:induction false} CombinedBits(f: Logic, a: nat, b: nat, n: nat, i: nat)
    requires i < n
    ensures Bit(Combined(f, a, b, n), i) == Applied(f, Bit(a, i), Bit(b, i))
    decreases n
  {
    if i > 0 {
      assert Combined(f, a, b, n) / 2 == Combined(f, a / 2, b / 2, n - 1);
      CombinedBits(f, a / 2, b / 2, n - 1, i - 1);
    }
  }

  lemma {:induction false} Pow32()
    ensures Pow2(32) == TWO32
  {
    assert Pow2(8) == 0x100;
    assert Pow2(16) == 0x1_0000 by { assert Pow2(12) == 0x1000; }
    assert Pow2(24) == 0x100_0000 by { assert Pow2(20) == 0x10_0000; }
    assert Pow2(28) == 0x1000_0000;
  }

  function Bitwise(f: Logic, w: Int32, arg: nat): Int32 {
    CombinedBound(f, Unsigned(w), arg, 32);
    Pow32();
    Signed(Combined(f, Unsigned(w), arg, 32))
  }

  /** The new value of FUTEX_WAKE_OP, unless the operation is unknown. */
  function NewValue(op: Int32, word: Int32): Option<Int32> {
    var arg := Unsigned(op) / 0x1000 % 0x1000;
    match Unsigned(op) / 0x1000_0000 % 0x10
    case 0 => Some(arg)
    case 1 => Some(Signed((Unsigned(word) + arg) % TWO32))
    case 2 => Some(Bitwise(Or, word, arg))
    case 3 => Some(Bitwise(AndNot, word, arg))
    case 4 => Some(Bitwise(Xor, word, arg))
    case _ => None
  }

  /** Whether it wakes from the second futex, unless the comparison is unknown. */
  function Compared(op: Int32, word: Int32): Option<bool> {
    var arg := Unsigned(op) % 0x1000;
    match Unsigned(op) / 0x100_0000 % 0x10
    case 0 => Some(word == arg)
    case 1 => Some(word != arg)
    case 2 => Some(word < arg)
    case 3 => Some(word <= arg)
    case 4 => Some(word > arg)
    case 5 => Some(word >= arg)
    case _ => None
  }

  // ----- what an encoded operation means -----

  /** An operation, a comparison and their arguments, as FUTEX_OP(o, x, k, y) encodes them. */
  datatype WakeOp = WakeOp(o: nat, k: nat, x: nat, y: nat)

  ghost predicate InFields(e: WakeOp) {
    e.o < 0x10 && e.k < 0x10 && e.x < 0x1000 && e.y < 0x1000
  }

  ghost function Encoded(e: WakeOp): Int32
    requires InFields(e)
  {
    Signed(e.o * 0x1000_0000 + e.k * 0x100_0000 + e.x * 0x1000 + e.y)
  }

  /** Only five operations and six comparisons are known. */
  ghost predicate Known(e: WakeOp) {
    e.o <= 4 && e.k <= 5
  }

  /** What a known operation makes of a word. */
  ghost predicate Changes(e: WakeOp, word: Int32, new_: Int32) {
    match e.o
    case 0 => new_ == e.x
    case 1 => (new_ - (word + e.x)) % TWO32 == 0
    case 2 => forall i :: 0 <= i < 32 ==> (Bit(Unsigned(new_), i) <==> Bit(Unsigned(word), i) || Bit(e.x, i))
    case 3 => forall i :: 0 <= i < 32 ==> (Bit(Unsigned(new_), i) <==> Bit(Unsigned(word), i) && !Bit(e.x, i))
    case 4 => forall i :: 0 <= i < 32 ==> (Bit(Unsigned(new_), i) <==> Bit(Unsigned(word), i) != Bit(e.x, i))
    case _ => false
  }

  /** What a known comparison says of a word. */
  ghost predicate Holds(e: WakeOp, word: Int32) {
    match e.k
    case 0 => word == e.y
    case 1 => word != e.y
    case 2 => word < e.y
    case 3 => word <= e.y
    case 4 => word > e.y
    case 5 => word >= e.y
    case _ => false
  }

  lemma {:induction false} Quotient(n: nat, d: nat, q: nat, r: nat)
    requires n == q * d + r && r < d
    ensures n / d == q && n % d == r
  {
    var e := n / d - q;
    assert e * d == r - n % d;
    assert e >= 1 ==> e * d >= d;
    assert e <= -1 ==> e * d + d <= 0;
  }

  lemma {:induction false} FieldsBack(e: WakeOp)
    requires InFields(e)
    ensures var u := Unsigned(Encoded(e));
      && u / 0x1000_0000 % 0x10 == e.o && u / 0x100_0000 % 0x10 == e.k
      && u / 0x1000 % 0x1000 == e.x && u % 0x1000 == e.y
  {
    var u := Unsigned(Encoded(e));
    assert u == e.o * 0x1000_0000 + e.k * 0x100_0000 + e.x * 0x1000 + e.y;
    hide Encoded, Unsigned, Signed;
    Quotient(u, 0x1000, e.o * 0x1_0000 + e.k * 0x1000 + e.x, e.y);
    Quotient(e.o * 0x1_0000 + e.k * 0x1000 + e.x, 0x1000, e.o * 0x10 + e.k, e.x);
    Quotient(u, 0x100_0000, e.o * 0x10 + e.k, e.x * 0x1000 + e.y);
    Quotient(e.o * 0x10 + e.k, 0x10, e.o, e.k);
    Quotient(u, 0x1000_0000, e.o, e.k * 0x100_0000 + e.x * 0x1000 + e.y);
    Quotient(e.o, 0x10, 0, e.o);
  }

  /** Every word is the encoding of exactly one operation. */
  lemma {:induction false} EveryWordEncodes(op: Int32) returns (e: WakeOp)
    ensures InFields(e) && Encoded(e) == op
    ensures forall d :: InFields(d) && Encoded(d) == op ==> d == e
  {
    var u := Unsigned(op);
    var v := u / 0x1000;
    var w := v / 0x1000;
    e := WakeOp(w / 0x10, w % 0x10, v % 0x1000, u % 0x1000);
    assert v == w * 0x1000 + e.x && w == e.o * 0x10 + e.k;
    assert e.o < 0x10;
    assert Unsigned(Encoded(e)) == u;
    hide Encoded;
    FieldsBack(e);
    forall d | InFields(d) && Encoded(d) == op
      ensures d == e
    {
      FieldsBack(d);
    }
  }

  lemma {:induction false} BitwiseBits(f: Logic, w: Int32, arg: nat)
    ensures forall i :: 0 <= i < 32 ==>
      Bit(Unsigned(Bitwise(f, w, arg)), i) == Applied(f, Bit(Unsigned(w), i), Bit(arg, i))
  {
    hide Bit, Combined, Applied;
    CombinedBound(f, Unsigned(w), arg, 32);
    Pow32();
    forall i | 0 <= i < 32
      ensures Bit(Unsigned(Bitwise(f, w, arg)), i) == Applied(f, Bit(Unsigned(w), i), Bit(arg, i))
    {
      CombinedBits(f, Unsigned(w), arg, 32, i);
    }
  }

  /** The two functions do what the encoded operation says, and refuse exactly an unknown one. */
  lemma {:induction false} OperationsDecoded(e: WakeOp, word: Int32)
    requires InFields(e)
    ensures var value, holds := NewValue(Encoded(e), word), Compared(Encoded(e), word);
      && (value.Some? <==> e.o <= 4) && (value.Some? ==> Changes(e, word, value.value))
      && (holds.Some? <==> e.k <= 5) && (holds.Some? ==> (holds.value <==> Holds(e, word)))
  {
    FieldsBack(e);
    hide Encoded, Bitwise, Bit;
    match e.o
    case 2 => BitwiseBits(Or, word, e.x);
    case 3 => BitwiseBits(AndNot, word, e.x);
    case 4 => BitwiseBits(Xor, word, e.x);
    case _ =>
  }

  ghost predicate KnownOp(op: Int32) {
    exists e :: InFields(e) && Known(e) && Encoded(e) == op
  }

  lemma {:induction false} KnownExactly(op: Int32, word: Int32)
    ensures KnownOp(op) <==> NewValue(op, word).Some? && Compared(op, word).Some?
  {
    hide Encoded, NewValue, Compared;
    var e := EveryWordEncodes(op);
    OperationsDecoded(e, word);
  }
}
