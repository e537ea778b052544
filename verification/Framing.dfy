/** Messages as length-and-tag frames on a byte stream, and the receiver that takes them apart
    (common/transport/socktransport.cc). */
module Framing {
  import opened Options
  import opened ThreadSums

  type Byte = b: int | 0 <= b < 256
  type Buffer = seq<Byte>

  const TWO32: nat := 0x1_0000_0000

  type UInt32 = n: int | 0 <= n < TWO32
  type SInt32 = n: int | -0x8000_0000 <= n < 0x8000_0000

  datatype Message = Message(tag: SInt32, data: Buffer)

  function Bytes4(n: UInt32): (b: Buffer)
    ensures |b| == 4
  {
    [n % 256, n / 256 % 256, n / 65536 % 256, n / 16777216]
  }

  function Value4(b: Buffer): UInt32
    requires |b| == 4
  {
    var b0: int, b1: int, b2: int, b3: int := b[0], b[1], b[2], b[3];
    b0 + 256 * b1 + 65536 * b2 + 16777216 * b3
  }

  lemma {:induction false} ValueOfBytes(n: UInt32)
    ensures Value4(Bytes4(n)) == n
  {
    assert n == n % 256 + 256 * (n / 256);
    assert n / 256 == n / 256 % 256 + 256 * (n / 256 / 256);
    assert n / 65536 == n / 65536 % 256 + 256 * (n / 65536 / 256);
    assert n / 256 / 256 == n / 65536 && n / 65536 / 256 == n / 16777216;
  }

  /** A tag and the 32-bit word that stands for it in two's complement. */
  function Word(t: SInt32): UInt32 { if t < 0 then t + TWO32 else t }

  function Signed(w: UInt32): SInt32 { if w >= 0x8000_0000 then w - TWO32 else w }

  ghost predicate Sendable(m: Message) {
    |m.data| < TWO32
  }

  /** The packet that `send` puts on the socket. */
  function Encode(m: Message): Buffer
    requires Sendable(m)
  {
    Bytes4(|m.data|) + Bytes4(Word(m.tag)) + m.data
  }

  ghost function Stream(ms: seq<Message>): Buffer
    requires forall i :: 0 <= i < |ms| ==> Sendable(ms[i])
  {
    if ms == [] then [] else Encode(ms[0]) + Stream(ms[1..])
  }

  /** The messages a receiver gets out of a stream: it never gets past an empty payload. */
  ghost function Parse(b: Buffer): seq<Message> {
    if |b| < 8 then []
    else
      var n := Value4(b[..4]);
      if n == 0 || |b| < 8 + n then []
      else [Message(Signed(Value4(b[4..8])), b[8..8 + n])] + Parse(b[8 + n..])
  }

  /** The messages before the first one with an empty payload. */
  ghost function Gettable(ms: seq<Message>): seq<Message> {
    if ms == [] || ms[0].data == [] then [] else [ms[0]] + Gettable(ms[1..])
  }

  lemma {:induction false} EncodeParts(m: Message, rest: Buffer)
    requires Sendable(m)
    ensures var b := Encode(m) + rest;
      && |b| == 8 + |m.data| + |rest|
      && Value4(b[..4]) == |m.data| && Signed(Value4(b[4..8])) == m.tag
      && b[8..8 + |m.data|] == m.data && b[8 + |m.data|..] == rest
  {
    var b := Encode(m) + rest;
    assert b[..4] == Bytes4(|m.data|);
    assert b[4..8] == Bytes4(Word(m.tag));
    ValueOfBytes(|m.data|);
    ValueOfBytes(Word(m.tag));
  }

  /** What is received of a stream of messages: all up to the first empty payload. */
  lemma {:induction false} ParseStream(ms: seq<Message>)
    requires forall i :: 0 <= i < |ms| ==> Sendable(ms[i])
    ensures Parse(Stream(ms)) == Gettable(ms)
  {
    hide Encode, Value4, Signed;
    if ms != [] {
      EncodeParts(ms[0], Stream(ms[1..]));
      ParseStream(ms[1..]);
    }
  }

  lemma {:induction false} GettableAll(ms: seq<Message>)
    ensures Gettable(ms) == ms <==> forall i :: 0 <= i < |ms| ==> ms[i].data != []
  {
    if ms != [] {
      GettableAll(ms[1..]);
      assert ms == [ms[0]] + ms[1..];
      assert (forall i :: 0 <= i < |ms| ==> ms[i].data != []) <==>
        (ms[0].data != [] && forall i :: 0 <= i < |ms[1..]| ==> ms[1..][i].data != []);
    }
  }

  /** All messages are received exactly when none has an empty payload. */
  lemma {:induction false} AllRecovered(ms: seq<Message>)
    requires forall i :: 0 <= i < |ms| ==> Sendable(ms[i])
    ensures Parse(Stream(ms)) == ms <==> forall i :: 0 <= i < |ms| ==> ms[i].data != []
  {
    ParseStream(ms);
    GettableAll(ms);
  }

  ghost predicate Prefix<T>(a: seq<T>, b: seq<T>) {
    |a| <= |b| && a == b[..|a|]
  }

  /** As long as only part of the stream has arrived, the receiver has got a prefix. */
  lemma {:induction false} PartParsed(ms: seq<Message>, b: Buffer)
    requires forall i :: 0 <= i < |ms| ==> Sendable(ms[i])
    requires Prefix(b, Stream(ms))
    ensures Prefix(Parse(b), ms)
    decreases ms
  {
    hide Encode, Value4, Signed;
    if ms != [] && |b| >= 8 {
      var m, s := ms[0], Stream(ms);
      EncodeParts(m, Stream(ms[1..]));
      assert b[..4] == s[..4] && b[4..8] == s[4..8];
      var n := |m.data|;
      if n > 0 && |b| >= 8 + n {
        assert b[8..8 + n] == s[8..8 + n];
        assert b[8 + n..] == s[8 + n..][..|b| - 8 - n];
        PartParsed(ms[1..], b[8 + n..]);
      }
    }
  }

  /** What is left of a stream behind the messages that can be got out of it. */
  ghost function Remainder(b: Buffer): Buffer {
    if |b| < 8 then b
    else
      var n := Value4(b[..4]);
      if n == 0 || |b| < 8 + n then b else Remainder(b[8 + n..])
  }

  /** Whole messages with a payload leave nothing behind. */
  lemma {:induction false} NothingRemains(ms: seq<Message>)
    requires forall i :: 0 <= i < |ms| ==> Sendable(ms[i]) && ms[i].data != []
    ensures Remainder(Stream(ms)) == []
  {
    hide Encode, Value4, Signed;
    if ms != [] {
      EncodeParts(ms[0], Stream(ms[1..]));
      NothingRemains(ms[1..]);
    }
  }

  // ----- what the update thread does with the messages -----

  const GLOBAL_TAG: SInt32 := -1
  const BARRIER_TAG: SInt32 := -2
  const TERMINATE_TAG: SInt32 := -3

  datatype ThreadState = Running | Exiting | Failed

  datatype Inbox = Inbox(lists: seq<seq<Buffer>>, barrierUnits: nat, state: ThreadState)

  /** A message and the process that sent it. */
  datatype Mail = Mail(from: nat, message: Message)

  /** This process among all of them. */
  datatype Place = Place(proc: nat, procs: nat)

  ghost predicate PlaceOk(p: Place) {
    p.proc < p.procs
  }

  /** The buffer list of a tag that stands for one. */
  function ListOf(tag: SInt32, n: nat): int {
    if tag == GLOBAL_TAG then n - 1 else tag
  }

  /** A message to stop comes from the process itself, a barrier message from the one before it. */
  function Deliver(b: Inbox, p: Place, mail: Mail): (r: Inbox)
    requires PlaceOk(p)
    ensures |r.lists| == |b.lists|
  {
    var m := mail.message;
    if b.state != Running then b
    else if m.tag == TERMINATE_TAG then b.(state := if mail.from == p.proc then Exiting else Failed)
    else if m.tag == BARRIER_TAG then
      b.(barrierUnits := b.barrierUnits + 1,
         state := if mail.from == (p.proc + p.procs - 1) % p.procs then Running else Failed)
    else
      var t := ListOf(m.tag, |b.lists|);
      if 0 <= t < |b.lists| then b.(lists := b.lists[t := b.lists[t] + [m.data]]) else b.(state := Failed)
  }

  ghost function DeliverAll(b: Inbox, p: Place, mails: seq<Mail>): (r: Inbox)
    requires PlaceOk(p)
    ensures |r.lists| == |b.lists|
    decreases mails
  {
    if mails == [] then b else DeliverAll(Deliver(b, p, mails[0]), p, mails[1..])
  }

  lemma {:induction false} DeliverMore(b: Inbox, p: Place, mails: seq<Mail>, more: seq<Mail>)
    requires PlaceOk(p)
    ensures DeliverAll(b, p, mails + more) == DeliverAll(DeliverAll(b, p, mails), p, more)
    decreases mails
  {
    if mails == [] {
      assert mails + more == more;
    } else {
      assert (mails + more)[1..] == mails[1..] + more;
      DeliverMore(Deliver(b, p, mails[0]), p, mails[1..], more);
    }
  }

  lemma {:induction false} StoppedDeliversNothing(b: Inbox, p: Place, mails: seq<Mail>)
    requires PlaceOk(p) && b.state != Running
    ensures DeliverAll(b, p, mails) == b
    decreases mails
  {
    if mails != [] {
      StoppedDeliversNothing(Deliver(b, p, mails[0]), p, mails[1..]);
    }
  }

  /** The payloads for list `t` of `n`, in order; the last list gets those for no particular tile. */
  ghost function For(mails: seq<Mail>, t: nat, n: nat): seq<Buffer> {
    if mails == [] then []
    else
      var m := mails[0].message;
      (if m.tag == t || (m.tag == GLOBAL_TAG && t == n - 1) then [m.data] else []) + For(mails[1..], t, n)
  }

  ghost function Barriers(mails: seq<Mail>): nat {
    if mails == [] then 0 else (if mails[0].message.tag == BARRIER_TAG then 1 else 0) + Barriers(mails[1..])
  }

  /** What the thread goes on after: a barrier message from the process whose successor in the ring
      this one is, or a message for one of its `n` lists. */
  ghost predicate InPlace(mail: Mail, p: Place, n: nat)
    requires PlaceOk(p)
  {
    var tag := mail.message.tag;
    || (tag == BARRIER_TAG && mail.from < p.procs && (mail.from + 1) % p.procs == p.proc)
    || (tag == GLOBAL_TAG && n > 0)
    || 0 <= tag < n
  }

  ghost predicate AllInPlace(mails: seq<Mail>, p: Place, n: nat)
    requires PlaceOk(p)
  {
    forall i :: 0 <= i < |mails| ==> InPlace(mails[i], p, n)
  }

  /** How many mails come before the first that is not in place. */
  ghost function Placed(mails: seq<Mail>, p: Place, n: nat): (k: nat)
    requires PlaceOk(p)
    ensures k <= |mails| && AllInPlace(mails[..k], p, n)
    ensures k < |mails| ==> !InPlace(mails[k], p, n)
    decreases mails
  {
    if mails == [] || !InPlace(mails[0], p, n) then 0
    else
      var k := Placed(mails[1..], p, n);
      assert mails[..k + 1] == [mails[0]] + mails[1..][..k];
      k + 1
  }

  lemma {:induction false} OneTurn(n: nat, r: nat)
    requires r < n
    ensures r % n == r && (n + r) % n == r
  {
  }

  lemma {:induction false} Predecessor(p: Place, i: nat)
    requires PlaceOk(p)
    ensures i == (p.proc + p.procs - 1) % p.procs <==> i < p.procs && (i + 1) % p.procs == p.proc
  {
    if p.proc == 0 {
      OneTurn(p.procs, p.procs - 1);
    } else {
      OneTurn(p.procs, p.proc - 1);
      assert p.proc + p.procs - 1 == p.procs + (p.proc - 1);
    }
    if i < p.procs - 1 {
      OneTurn(p.procs, i + 1);
    } else if i == p.procs - 1 {
      OneTurn(p.procs, 0);
    }
  }

  /** Whether the thread goes on after one message, and why it stops. */
  lemma {:induction false} DeliverState(b: Inbox, p: Place, mail: Mail)
    requires PlaceOk(p) && b.state == Running
    ensures var s := Deliver(b, p, mail).state;
      && (s == Running <==> InPlace(mail, p, |b.lists|))
      && (s == Exiting <==> mail.message.tag == TERMINATE_TAG && mail.from == p.proc)
  {
    Predecessor(p, mail.from);
  }

  /** The thread runs on exactly as long as every message is in place; it is told to stop exactly
      when the first that is not is a stop message from the process itself; otherwise it fails. */
  lemma {:induction false} RunsExactly(b: Inbox, p: Place, mails: seq<Mail>)
    requires PlaceOk(p) && b.state == Running
    ensures var s, k := DeliverAll(b, p, mails).state, Placed(mails, p, |b.lists|);
      && (s == Running <==> AllInPlace(mails, p, |b.lists|))
      && (s == Exiting <==> k < |mails| && mails[k].message.tag == TERMINATE_TAG && mails[k].from == p.proc)
    decreases mails
  {
    hide Deliver, InPlace;
    if mails != [] {
      var c := Deliver(b, p, mails[0]);
      DeliverState(b, p, mails[0]);
      if c.state == Running {
        RunsExactly(c, p, mails[1..]);
        assert forall i :: 0 < i < |mails| ==> mails[i] == mails[1..][i - 1];
      } else {
        StoppedDeliversNothing(c, p, mails[1..]);
      }
    }
  }

  /** Of the messages in place each list gets exactly its own payloads in order, and each barrier
      message becomes a unit of the barrier's semaphore, also one that makes the thread fail;
      of what comes behind nothing is delivered. */
  lemma {:induction false} EachGetsItsOwn(b: Inbox, p: Place, mails: seq<Mail>, t: nat)
    requires PlaceOk(p) && b.state == Running && t < |b.lists|
    ensures var k := Placed(mails, p, |b.lists|);
      && DeliverAll(b, p, mails).lists[t] == b.lists[t] + For(mails[..k], t, |b.lists|)
      && DeliverAll(b, p, mails).barrierUnits ==
           b.barrierUnits + Barriers(mails[..k]) + Barriers(if k < |mails| then [mails[k]] else [])
    decreases mails
  {
    hide InPlace;
    if mails != [] {
      var c := Deliver(b, p, mails[0]);
      DeliverState(b, p, mails[0]);
      DeliverParts(b, p, mails[0], t);
      hide Deliver;
      if c.state == Running {
        EachGetsItsOwn(c, p, mails[1..], t);
        var k := Placed(mails[1..], p, |b.lists|);
        assert mails[..k + 1][0] == mails[0] && mails[..k + 1][1..] == mails[1..][..k];
        assert k + 1 < |mails| ==> mails[k + 1] == mails[1..][k];
      } else {
        StoppedDeliversNothing(c, p, mails[1..]);
      }
    }
  }

  lemma {:induction false} DeliverParts(b: Inbox, p: Place, mail: Mail, t: nat)
    requires PlaceOk(p) && b.state == Running && t < |b.lists|
    ensures var c := Deliver(b, p, mail);
      && c.barrierUnits == b.barrierUnits + Barriers([mail])
      && c.lists[t] == b.lists[t] + (if c.state == Running then For([mail], t, |b.lists|) else [])
  {
  }

  /** What came from one process, in order. */
  ghost function Of(mails: seq<Mail>, i: nat): seq<Message> {
    if mails == [] then [] else (if mails[0].from == i then [mails[0].message] else []) + Of(mails[1..], i)
  }

  lemma {:induction false} OfMore(mails: seq<Mail>, mail: Mail, i: nat)
    ensures Of(mails + [mail], i) == Of(mails, i) + if mail.from == i then [mail.message] else []
  {
    if mails == [] {
      assert mails + [mail] == [mail] && [mail][1..] == [];
    } else {
      assert (mails + [mail])[1..] == mails[1..] + [mail];
      OfMore(mails[1..], mail, i);
    }
  }

  lemma {:induction false} CameFrom(mails: seq<Mail>, k: nat)
    requires k < |mails|
    ensures mails[k].message in Of(mails, mails[k].from)
  {
    if k > 0 {
      CameFrom(mails[1..], k - 1);
    }
  }

  lemma {:induction false} CameIn(mails: seq<Mail>, i: nat, m: Message)
    requires m in Of(mails, i)
    ensures Mail(i, m) in mails
  {
    if mails[0].from != i || mails[0].message != m {
      CameIn(mails[1..], i, m);
      assert Mail(i, m) in mails[1..];
    }
  }

  // ----- the receiver -----

  datatype Received =
    | Got(bytes: Buffer)
    | Nothing   // nothing there, and the caller does not block
    | Stuck     // does not return with what arrives

  ghost function Flat(a: seq<Buffer>): Buffer {
    if a == [] then [] else a[0] + Flat(a[1..])
  }

  /** What is still to come on one socket. */
  ghost function Left(a: seq<Buffer>): nat {
    |Flat(a)| + |a|
  }

  /** A receiving socket. */
  class Socket {
    /** What each next call of the operating system finds new: any fragments of the stream, an
        empty one when nothing has come. */
    var arrivals: seq<Buffer>

    constructor (arrivals: seq<Buffer>)
      ensures this.arrivals == arrivals
    {
      this.arrivals := arrivals;
    }

    /** The operating system's receive: at most `length` bytes of what is there. */
    method Take(length: nat) returns (chunk: Buffer)
      requires arrivals != [] && length > 0
      modifies this`arrivals
      ensures chunk + Flat(arrivals) == old(Flat(arrivals)) && |chunk| <= length
      ensures |arrivals| <= |old(arrivals)| && Left(arrivals) < old(Left(arrivals))
      ensures chunk == [] ==> |arrivals| < |old(arrivals)|
    {
      var front := arrivals[0];
      if |front| <= length {
        chunk := front;
        arrivals := arrivals[1..];
      } else {
        chunk := front[..length];
        assert front == chunk + front[length..];
        arrivals := [front[length..]] + arrivals[1..];
        assert arrivals[1..] == old(arrivals)[1..];
      }
    }

    /** Receives `length` bytes, however they are cut up.  A receive of no bytes never succeeds. */
    method Recv(length: nat, block: bool) returns (r: Received)
      modifies this`arrivals
      ensures |arrivals| <= |old(arrivals)|
      ensures r.Got? ==> |r.bytes| == length > 0 && r.bytes + Flat(arrivals) == old(Flat(arrivals))
      ensures r.Nothing? ==> !block && Flat(arrivals) == old(Flat(arrivals))
      ensures r.Nothing? && length > 0 ==> arrivals == old(arrivals) == [] || |arrivals| < |old(arrivals)|
      ensures r.Stuck? ==> if length == 0 then block else |old(Flat(arrivals))| < length
      ensures r.Stuck? && !block ==> old(Flat(arrivals)) != []
    {
      if length == 0 {
        return if block then Stuck else Nothing;
      }
      while true
        invariant Flat(arrivals) == old(Flat(arrivals)) && |arrivals| <= |old(arrivals)|
        invariant !block ==> arrivals == old(arrivals)
        decreases |arrivals|
      {
        if arrivals == [] {
          return if block then Stuck else Nothing;
        }
        var chunk := Take(length);
        if |chunk| >= 1 {
          r := Complete(chunk, length);
          return;
        } else if !block {
          return Nothing;
        }
      }
    }

    /** Blocks for the remainder of what was asked for. */
    method Complete(chunk: Buffer, length: nat) returns (r: Received)
      requires 0 < |chunk| <= length
      modifies this`arrivals
      ensures !r.Nothing? && |arrivals| <= |old(arrivals)|
      ensures r.Got? ==> |r.bytes| == length && r.bytes + Flat(arrivals) == chunk + old(Flat(arrivals))
      ensures r.Stuck? ==> |chunk + old(Flat(arrivals))| < length
    {
      var bytes := chunk;
      while |bytes| < length
        invariant |arrivals| <= |old(arrivals)|
        invariant |bytes| <= length && bytes + Flat(arrivals) == chunk + old(Flat(arrivals))
        decreases Left(arrivals)
      {
        if arrivals == [] {
          return Stuck;
        }
        ghost var before := Flat(arrivals);
        var more := Take(length - |bytes|);
        assert bytes + before == (bytes + more) + Flat(arrivals);
        bytes := bytes + more;
      }
      return Got(bytes);
    }

    /** Receives one message: its length if there is one, then its tag and payload. */
    method RecvMessage() returns (m: Option<Message>, stuck: bool)
      modifies this`arrivals
      ensures m.Some? ==> !stuck && Parse(old(Flat(arrivals))) == [m.value] + Parse(Flat(arrivals))
      ensures m.Some? ==> Remainder(Flat(arrivals)) == Remainder(old(Flat(arrivals)))
      ensures m.Some? ==> Left(arrivals) < old(Left(arrivals))
      ensures m.None? && !stuck ==> Flat(arrivals) == old(Flat(arrivals))
      ensures m.None? && !stuck ==> arrivals == old(arrivals) == [] || |arrivals| < |old(arrivals)|
      ensures stuck ==> m.None? && Parse(old(Flat(arrivals))) == [] && Remainder(old(Flat(arrivals))) != []
    {
      hide Flat, Value4, Signed;
      ghost var all := Flat(arrivals);
      m, stuck := None, false;
      var length := Recv(4, false);
      match length {
        case Nothing => return;
        case Stuck => stuck := true;
        case Got(l) =>
          assert all[..4] == l;
          var tag := Recv(4, true);
          if tag.Stuck? {
            stuck := true;
            return;
          }
          assert all[4..8] == tag.bytes && all[8..] == Flat(arrivals);
          var n := Value4(l);
          var data := Recv(n, true);
          if data.Stuck? {
            stuck := true;
            return;
          }
          assert all[8..8 + n] == data.bytes && all[8 + n..] == Flat(arrivals);
          m := Some(Message(Signed(Value4(tag.bytes)), data.bytes));
      }
    }
  }

  ghost function Same(n: nat): nat { n }

  /** The messages and bytes of every stream are in what came in or still to come; on the blocked
      one nothing more can be got. */
  ghost predicate Tally(streams: seq<Buffer>, got: seq<Mail>, left: seq<Buffer>, blocked: Option<nat>) {
    && |streams| == |left| && (blocked.Some? ==> blocked.value < |streams|)
    && (forall k :: 0 <= k < |got| ==> got[k].from < |streams|)
    && forall i :: 0 <= i < |streams| ==>
         if blocked == Some(i) then Parse(streams[i]) == Of(got, i) && Remainder(streams[i]) != []
         else Parse(streams[i]) == Of(got, i) + Parse(left[i]) && Remainder(streams[i]) == Remainder(left[i])
  }

  lemma {:induction false} TallyMore(streams: seq<Buffer>, got: seq<Mail>, left: seq<Buffer>, i: nat, m: Message,
      rest: Buffer)
    requires Tally(streams, got, left, None) && i < |left|
    requires Parse(left[i]) == [m] + Parse(rest) && Remainder(left[i]) == Remainder(rest)
    ensures Tally(streams, got + [Mail(i, m)], left[i := rest], None)
  {
    hide Parse, Remainder, Of;
    forall j | 0 <= j < |streams|
      ensures Parse(streams[j]) == Of(got + [Mail(i, m)], j) + Parse(left[i := rest][j])
    {
      OfMore(got, Mail(i, m), j);
      if j == i {
        assert Of(got, i) + ([m] + Parse(rest)) == (Of(got, i) + [m]) + Parse(rest);
      } else {
        assert Of(got, j) + [] == Of(got, j);
      }
    }
  }

  lemma {:induction false} TallyBlocked(streams: seq<Buffer>, got: seq<Mail>, left: seq<Buffer>, i: nat, rest: Buffer)
    requires Tally(streams, got, left, None) && i < |left| && Parse(left[i]) == [] && Remainder(left[i]) != []
    ensures Tally(streams, got, left[i := rest], Some(i))
  {
    hide Parse, Remainder, Of;
    assert Of(got, i) + [] == Of(got, i);
  }

  ghost predicate StreamsInPlace(streams: seq<Buffer>, p: Place, n: nat)
    requires PlaceOk(p)
  {
    forall i, k :: 0 <= i < |streams| && 0 <= k < |Parse(streams[i])| ==> InPlace(Mail(i, Parse(streams[i])[k]), p, n)
  }

  ghost predicate OwnStop(mail: Mail, p: Place) {
    mail.message.tag == TERMINATE_TAG && mail.from == p.proc
  }

  ghost predicate StreamsProper(streams: seq<Buffer>, p: Place, n: nat)
    requires PlaceOk(p)
  {
    forall i, k :: 0 <= i < |streams| && 0 <= k < |Parse(streams[i])| ==>
      var mail := Mail(i, Parse(streams[i])[k]);
      InPlace(mail, p, n) || OwnStop(mail, p)
  }

  /** What came in is in its stream. */
  lemma {:induction false} InStream(streams: seq<Buffer>, got: seq<Mail>, left: seq<Buffer>, blocked: Option<nat>,
      k: nat)
    requires Tally(streams, got, left, blocked) && k < |got|
    ensures got[k].from < |streams| && got[k].message in Parse(streams[got[k].from])
  {
    hide Parse, Remainder, Of;
    CameFrom(got, k);
  }

  /** How the thread ends up, by what the streams hold. */
  lemma {:induction false} RunsByStreams(b: Inbox, p: Place, streams: seq<Buffer>, got: seq<Mail>, left: seq<Buffer>,
      blocked: Option<nat>)
    requires PlaceOk(p) && b.state == Running && Tally(streams, got, left, blocked)
    ensures var s := DeliverAll(b, p, got).state;
      && (StreamsInPlace(streams, p, |b.lists|) ==> s == Running)
      && (StreamsProper(streams, p, |b.lists|) ==> s != Failed)
      && (s == Running && (forall i :: 0 <= i < |streams| ==> Of(got, i) == Parse(streams[i])) ==>
            StreamsInPlace(streams, p, |b.lists|))
  {
    hide Parse, Of, InPlace, Tally, DeliverAll;
    RunsExactly(b, p, got);
    forall k | 0 <= k < |got|
      ensures StreamsInPlace(streams, p, |b.lists|) ==> InPlace(got[k], p, |b.lists|)
      ensures StreamsProper(streams, p, |b.lists|) ==> InPlace(got[k], p, |b.lists|) || OwnStop(got[k], p)
    {
      InStream(streams, got, left, blocked, k);
      assert got[k] == Mail(got[k].from, got[k].message);
    }
    if AllInPlace(got, p, |b.lists|) {
      forall i, k | 0 <= i < |streams| && Of(got, i) == Parse(streams[i]) && 0 <= k < |Parse(streams[i])|
        ensures InPlace(Mail(i, Parse(streams[i])[k]), p, |b.lists|)
      {
        CameIn(got, i, Parse(streams[i])[k]);
      }
    }
  }

  /** The transport's receiving side: a socket for every process, and the lists they share. */
  class SockTransport {
    const place: Place
    const sockets: seq<Socket>
    var inbox: Inbox
    /** The socket on which the thread does not return from a receive, if there is one. */
    var blocked: Option<nat>
    /** What came in so far, in order, and what there was at the start. */
    ghost var got: seq<Mail>
    ghost var streams: seq<Buffer>
    ghost var first: Inbox

    ghost predicate SocketsOk()
      reads this
    {
      && PlaceOk(place) && |sockets| == place.procs
      && forall i, j :: 0 <= i < j < |sockets| ==> sockets[i] != sockets[j]
    }

    /** The bytes still to come, and the work they are. */
    ghost function ToCome(): seq<Buffer>
      reads sockets
    {
      seq(|sockets|, i requires 0 <= i < |sockets| reads sockets => Flat(sockets[i].arrivals))
    }

    ghost function Backlog(): seq<nat>
      reads sockets
    {
      seq(|sockets|, i requires 0 <= i < |sockets| reads sockets => Left(sockets[i].arrivals))
    }

    ghost predicate Valid()
      reads this, sockets
    {
      && SocketsOk() && inbox == DeliverAll(first, place, got)
      && Tally(streams, got, ToCome(), blocked)
    }

    constructor (place: Place, sockets: seq<Socket>, lists: nat)
      requires PlaceOk(place) && |sockets| == place.procs
      requires forall i, j :: 0 <= i < j < |sockets| ==> sockets[i] != sockets[j]
      ensures Valid() && this.place == place && this.sockets == sockets && blocked == None
      ensures inbox == first == Inbox(seq(lists, _ => []), 0, Running) && streams == ToCome()
    {
      this.place, this.sockets := place, sockets;
      inbox := Inbox(seq(lists, _ => []), 0, Running);
      blocked := None;
      got := [];
      streams := seq(|sockets|, i requires 0 <= i < |sockets| reads sockets => Flat(sockets[i].arrivals));
      first := Inbox(seq(lists, _ => []), 0, Running);
    }

    /** Takes in messages of one process until none is there or the thread has been told to stop. */
    method ReceiveFrom(i: nat)
      requires Valid() && i < |sockets| && inbox.state == Running && blocked == None
      modifies this`inbox, this`blocked, this`got, sockets[i]
      ensures Valid() && streams == old(streams) && first == old(first)
      ensures blocked == None ==> Left(sockets[i].arrivals) <= old(Left(sockets[i].arrivals))
      ensures blocked == None && inbox.state == Running && old(sockets[i].arrivals) != [] ==>
        Left(sockets[i].arrivals) < old(Left(sockets[i].arrivals))
    {
      hide Parse, Remainder, Of, Flat, Tally, Deliver;
      while inbox.state == Running
        invariant Valid() && blocked == None && streams == old(streams) && first == old(first)
        invariant Left(sockets[i].arrivals) <= old(Left(sockets[i].arrivals))
        invariant Left(sockets[i].arrivals) < old(Left(sockets[i].arrivals)) ||
          sockets[i].arrivals == old(sockets[i].arrivals)
        decreases Left(sockets[i].arrivals)
      {
        ghost var left := ToCome();
        var m, stuck := sockets[i].RecvMessage();
        assert ToCome() == left[i := Flat(sockets[i].arrivals)];
        if stuck {
          TallyBlocked(streams, got, left, i, Flat(sockets[i].arrivals));
          blocked := Some(i);
          return;
        }
        if m.None? {
          assert ToCome() == left;
          return;
        }
        TallyMore(streams, got, left, i, m.value, Flat(sockets[i].arrivals));
        DeliverMore(first, place, got, [Mail(i, m.value)]);
        DeliverOne(inbox, place, Mail(i, m.value));
        inbox := Deliver(inbox, place, Mail(i, m.value));
        got := got + [Mail(i, m.value)];
      }
    }

    /** One turn over all sockets. */
    method UpdateBufferLists()
      requires Valid() && inbox.state == Running && blocked == None
      modifies this`inbox, this`blocked, this`got, sockets
      ensures Valid() && streams == old(streams) && first == old(first)
      ensures blocked == None && inbox.state == Running ==>
        (exists i :: 0 <= i < |sockets| && old(sockets[i].arrivals) != []) ==>
        Sum(Backlog(), Same) < old(Sum(Backlog(), Same))
    {
      hide Flat, Tally, DeliverAll;
      ghost var start := Backlog();
      for i := 0 to |sockets|
        invariant Valid() && inbox.state == Running && blocked == None && streams == old(streams) && first == old(first)
        invariant forall j :: i <= j < |sockets| ==> sockets[j].arrivals == old(sockets[j].arrivals)
        invariant Sum(Backlog(), Same) <= Sum(start, Same)
        invariant (exists j :: 0 <= j < i && old(sockets[j].arrivals) != []) ==> Sum(Backlog(), Same) < Sum(start, Same)
      {
        ghost var before := Backlog();
        ReceiveFrom(i);
        assert Backlog() == before[i := Left(sockets[i].arrivals)];
        SumUpdate(before, Same, i, Left(sockets[i].arrivals));
        if inbox.state != Running || blocked.Some? {
          return;
        }
      }
    }

    /** The update thread: whatever the fragments and their timing, the lists get an interleaving of
        the messages of all streams; as long as the thread runs, all of them, unless a stream holds
        something other than whole messages with a payload.  It runs on if every message of every
        stream is in place, and only then, and does not fail if the others are its own stop messages. */
    method UpdateThread()
      requires Valid() && blocked == None
      modifies this`inbox, this`blocked, this`got, sockets
      ensures Valid() && streams == old(streams) && first == old(first)
      ensures blocked == None && inbox.state == Running ==>
        forall i :: 0 <= i < |streams| ==> Of(got, i) == Parse(streams[i])
      ensures (forall i :: 0 <= i < |streams| ==> Remainder(streams[i]) == []) ==> blocked == None
      ensures first.state == Running && StreamsInPlace(streams, place, |first.lists|) ==> inbox.state == Running
      ensures first.state == Running && blocked == None && inbox.state == Running ==>
        StreamsInPlace(streams, place, |first.lists|)
      ensures first.state == Running && StreamsProper(streams, place, |first.lists|) ==> inbox.state != Failed
    {
      hide Tally, DeliverAll, Parse, Remainder, Of, StreamsInPlace, StreamsProper, InPlace;
      while inbox.state == Running && blocked == None && exists i :: 0 <= i < |sockets| && sockets[i].arrivals != []
        invariant Valid() && streams == old(streams) && first == old(first)
        decreases if blocked == None && inbox.state == Running then 1 else 0, Sum(Backlog(), Same)
      {
        UpdateBufferLists();
      }
      BlockedNever(streams, got, ToCome(), blocked);
      if blocked == None && inbox.state == Running {
        assert forall i :: 0 <= i < |sockets| ==> ToCome()[i] == [];
        AllTaken(streams, got, ToCome());
      }
      if first.state == Running {
        RunsByStreams(first, place, streams, got, ToCome(), blocked);
      }
    }
  }

  lemma {:induction false} BlockedNever(streams: seq<Buffer>, got: seq<Mail>, left: seq<Buffer>, blocked: Option<nat>)
    requires Tally(streams, got, left, blocked)
    ensures (forall i :: 0 <= i < |streams| ==> Remainder(streams[i]) == []) ==> blocked == None
  {
    hide Parse, Remainder, Of;
  }

  lemma {:induction false} AllTaken(streams: seq<Buffer>, got: seq<Mail>, left: seq<Buffer>)
    requires Tally(streams, got, left, None) && forall i :: 0 <= i < |left| ==> left[i] == []
    ensures forall i :: 0 <= i < |streams| ==> Of(got, i) == Parse(streams[i])
  {
    hide Remainder, Of;
    forall i | 0 <= i < |streams|
      ensures Of(got, i) == Parse(streams[i])
    {
      assert Parse([]) == [] && Of(got, i) + [] == Of(got, i);
    }
  }

  lemma {:induction false} DeliverOne(b: Inbox, p: Place, mail: Mail)
    requires PlaceOk(p)
    ensures DeliverAll(b, p, [mail]) == Deliver(b, p, mail)
  {
    assert [mail][1..] == [];
  }
}
