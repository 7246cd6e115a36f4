// io_uring/io_uring_linux.c.v: the submission and completion rings. Worker and kernel each advance their own end
// with wrapping 32-bit indices; a ring refines an unbounded FIFO under every interleaving of their steps.
module Rings {
  import opened Bytes

  const U32 := 0x1_0000_0000

  // ----- wrapping indices

  /** a - b in 32 bits. */
  function Sub32(a: u32, b: u32): u32 {
    (a - b) % U32
  }

  function Add32(a: u32, n: nat): u32 {
    (a + n) % U32
  }

  /** Bitwise and. */
  function And(x: nat, y: nat): nat {
    if x == 0 then 0 else (x % 2) * (y % 2) + 2 * And(x / 2, y / 2)
  }

  /** Masking with a power of two less one is the remainder. */
  lemma {:induction false} MaskIsRemainder(x: nat, k: nat)
    ensures And(x, Pow2(k) - 1) == x % Pow2(k)
    decreases k
  {
    hide And;
    if k == 0 {
      AndZero(x);
    } else {
      var p := Pow2(k - 1);
      MaskIsRemainder(x / 2, k - 1);
      AndOdd(x, p);
      HalfRemainder(x, p);
    }
  }

  lemma AndOdd(x: nat, p: nat)
    requires p > 0
    ensures And(x, 2 * p - 1) == x % 2 + 2 * And(x / 2, p - 1)
  {
    var y := 2 * p - 1;
    assert y % 2 == 1 && y / 2 == p - 1;
    assert (x % 2) * (y % 2) == x % 2;
  }

  lemma {:induction false} AndZero(x: nat)
    ensures And(x, 0) == 0
  {
    if x > 0 { AndZero(x / 2); }
  }

  lemma HalfRemainder(x: nat, p: nat)
    requires p > 0
    ensures x % (2 * p) == x % 2 + 2 * (x / 2 % p)
  {
    var q, r := x / 2 / p, x / 2 % p;
    assert x == q * (2 * p) + (x % 2 + 2 * r) by { assert x / 2 == q * p + r; Double(q, p); }
    DivModUnique(q, 2 * p, x % 2 + 2 * r);
  }

  lemma Double(q: nat, p: nat)
    ensures 2 * (q * p) == q * (2 * p)
  {
  }

  lemma Pow2Of32()
    ensures Pow2(32) == U32
  {
    assert Pow2(8) == 256;
    Pow2Add(8, 8);
    Pow2Add(16, 16);
  }

  /** Wrapping at 32 bits does not disturb the slot of an index. */
  lemma WrapKeepsSlot(i: nat, k: nat)
    requires k <= 32
    ensures (i % U32) % Pow2(k) == i % Pow2(k)
  {
    Pow2Of32();
    Pow2Add(32 - k, k);
    RemainderOfRemainder(i, Pow2(32 - k), Pow2(k));
  }

  lemma RemainderOfRemainder(i: nat, m: nat, d: nat)
    requires d > 0 && m > 0
    ensures m * d > 0 && (i % (m * d)) % d == i % d
  {
    MulLower(m, d);
    var u := m * d;
    SameRemainder(i, m, d, u, i / u, i % u, i % u / d, i % u % d);
  }

  lemma SameRemainder(i: nat, m: nat, d: nat, u: nat, q: nat, r: nat, q1: nat, r1: nat)
    requires u == m * d && i == q * u + r && r == q1 * d + r1 && r1 < d
    ensures r1 == i % d
  {
    Regroup(q, m, d, q1, r1);
    DivModUnique(q * m + q1, d, r1);
  }

  lemma Regroup(q: nat, m: nat, d: nat, q1: nat, r1: nat)
    ensures q * (m * d) + (q1 * d + r1) == (q * m + q1) * d + r1
  {
  }

  /** Wrapped indices less than 2^32 apart differ by what the indices differ by. */
  lemma WrapDistance(a: nat, b: nat)
    requires b <= a < b + U32
    ensures Sub32(a % U32, b % U32) == a - b
  {
    var x := a % U32 - b % U32;
    assert x == (a - b) + (b / U32 - a / U32) * U32;
    if x >= 0 {
      DivModUnique(0, U32, x);
    }
  }

  lemma WrapAdd(a: nat, n: nat)
    ensures Add32(a % U32, n) == (a + n) % U32
  {
    var q := a / U32;
    var b := a % U32 + n;
    assert a + n == (q + b / U32) * U32 + b % U32;
    DivModUnique(q + b / U32, U32, b % U32);
  }

  /** Fewer than n consecutive indices apart, different indices have different slots. */
  lemma SlotsDiffer(a: nat, b: nat, n: nat)
    requires a < b < a + n
    ensures a % n != b % n
  {
    if a % n == b % n {
      assert b - a == (b / n - a / n) * n;
      if b / n > a / n {
        MulLower(b / n - a / n, n);
      }
    }
  }

  // ----- one ring

  /** A ring of 2^bits slots between a producer and a consumer: the queue entries, and the indices as written. */
  datatype Ring<T> = Ring(bits: nat, slots: seq<T>, head: u32, tail: u32)
  {
    function Size(): nat { Pow2(bits) }

    function Slot(i: u32): nat { And(i, Size() - 1) }

    function Ready(): u32 { Sub32(tail, head) }

    predicate Shaped() { bits < 32 && |slots| == Size() }
  }

  /** A producer that finds the ring full leaves it alone. */
  function Push<T>(r: Ring<T>, x: T): (q: Ring<T>)
    requires r.Shaped()
    ensures q.Shaped() && q.bits == r.bits && q.head == r.head
  {
    if r.Ready() >= r.Size() then r
    else
      MaskIsRemainder(r.tail, r.bits);
      r.(slots := r.slots[r.Slot(r.tail) := x], tail := Add32(r.tail, 1))
  }

  function Peek<T>(r: Ring<T>, i: nat): T
    requires r.Shaped()
  {
    MaskIsRemainder(Add32(r.head, i), r.bits);
    r.slots[r.Slot(Add32(r.head, i))]
  }

  function Advance<T>(r: Ring<T>, n: nat): Ring<T> {
    r.(head := Add32(r.head, n))
  }

  /** The ring holds all.[gone..]: everything ever pushed, less what was handed back. */
  ghost predicate Holds<T>(r: Ring<T>, all: seq<T>, gone: nat) {
    && r.Shaped()
    && gone <= |all| <= gone + r.Size()
    && r.head == gone % U32 && r.tail == |all| % U32
    && (forall i :: gone <= i < |all| ==> r.slots[i % r.Size()] == all[i])
  }

  lemma {:induction false} Pow2Below(k: nat, n: nat)
    requires k <= n
    ensures Pow2(k) <= Pow2(n)
    decreases n
  {
    if k < n { Pow2Below(k, n - 1); }
  }

  lemma SizeFits(k: nat)
    requires k < 32
    ensures Pow2(k) < U32
  {
    Pow2Of32();
    Pow2Add(31, 1);
    Pow2Below(k, 31);
  }

  lemma ReadyCounts<T>(r: Ring<T>, all: seq<T>, gone: nat)
    requires Holds(r, all, gone) == true
    ensures gone <= |all| && r.Ready() == |all| - gone && r.head == gone % U32 && r.tail == |all| % U32
  {
    SizeFits(r.bits);
    WrapDistance(|all|, gone);
  }

  /** Pushing appends to the FIFO, unless the ring is full; no slot still held is overwritten. */
  lemma PushHolds<T>(r: Ring<T>, all: seq<T>, gone: nat, x: T)
    requires Holds(r, all, gone) == true
    ensures Holds(Push(r, x), if |all| - gone < r.Size() then all + [x] else all, gone)
  {
    ReadyCounts(r, all, gone);
    if |all| - gone < r.Size() {
      MaskIsRemainder(r.tail, r.bits);
      WrapKeepsSlot(|all|, r.bits);
      WrapAdd(|all|, 1);
      forall i | gone <= i < |all| ensures i % r.Size() != |all| % r.Size() {
        SlotsDiffer(i, |all|, r.Size());
      }
    }
  }

  /** The i-th ready entry is the i-th of the FIFO. */
  lemma PeekHolds<T>(r: Ring<T>, all: seq<T>, gone: nat, i: nat)
    requires Holds(r, all, gone) == true && gone + i < |all|
    ensures Peek(r, i) == all[gone + i]
  {
    WrapAdd(gone, i);
    MaskIsRemainder(Add32(r.head, i), r.bits);
    WrapKeepsSlot(gone + i, r.bits);
  }

  lemma AdvanceHolds<T>(r: Ring<T>, all: seq<T>, gone: nat, n: nat)
    requires Holds(r, all, gone) == true && gone + n <= |all|
    ensures Holds(Advance(r, n), all, gone + n)
  {
    WrapAdd(gone, n);
  }

  /** The kernel posts what it held back, as far as there is room. */
  function PushAll<T>(r: Ring<T>, xs: seq<T>): (q: Ring<T>)
    requires r.Shaped()
    ensures q.Shaped() && q.bits == r.bits && q.head == r.head
    decreases |xs|
  {
    if xs == [] then r else PushAll(Push(r, xs[0]), xs[1..])
  }

  /** What was held back joins the FIFO in order, up to the room there is. */
  lemma {:induction false} PushAllHolds<T>(r: Ring<T>, all: seq<T>, gone: nat, xs: seq<T>)
    requires Holds(r, all, gone) == true
    ensures |all| - gone <= r.Size()
    ensures Holds(PushAll(r, xs), all + xs[..Min(|xs|, r.Size() - (|all| - gone))], gone) == true
    decreases |xs|
  {
    hide Holds, Push, Pow2;
    HoldsFits(r, all, gone);
    var room := r.Size() - (|all| - gone);
    if xs == [] {
      assert all + xs[..0] == all;
    } else {
      PushHolds(r, all, gone, xs[0]);
      if room == 0 {
        PushAllHolds(Push(r, xs[0]), all, gone, xs[1..]);
        assert all + xs[..0] == all && all + xs[1..][..0] == all;
      } else {
        PushAllHolds(Push(r, xs[0]), all + [xs[0]], gone, xs[1..]);
        OneOn(all, xs, Min(|xs|, room));
      }
    }
  }

  lemma OneOn<T>(all: seq<T>, xs: seq<T>, k: nat)
    requires 0 < k <= |xs|
    ensures all + [xs[0]] + xs[1..][..k - 1] == all + xs[..k]
  {
  }

  lemma HoldsFits<T>(r: Ring<T>, all: seq<T>, gone: nat)
    requires Holds(r, all, gone) == true
    ensures r.Shaped() && gone <= |all| <= gone + r.Size()
  {
  }

  // ----- the pair of rings, and its runs

  /** `sq` runs from the kernel's head to the worker's private tail; the kernel sees it up to `sqKtail`. */
  datatype Uring<S, C> = Uring(sq: Ring<S>, sqeHead: u32, sqKtail: u32, cq: Ring<C>)

  /** `flush_sq` */
  function FlushSq<S, C>(u: Uring<S, C>): Uring<S, C> {
    if u.sqeHead != u.sq.tail then u.(sqeHead := u.sq.tail, sqKtail := u.sq.tail) else u
  }

  /** `peek_batch_cqe`: how many completions a batch of at most count gets. */
  function BatchSize<C>(cq: Ring<C>, count: u32): u32 {
    if cq.Ready() < count then cq.Ready() else count
  }

  /** The rings after `peek_batch_cqe`: completions held back are asked for only when none is ready. */
  function Fetched<S, C>(u: Uring<S, C>, needsFlush: bool, held: seq<C>): Uring<S, C>
    requires u.cq.Shaped()
  {
    if u.cq.Ready() == 0 && needsFlush then u.(cq := PushAll(u.cq, held)) else u
  }

  /** A step of the worker (fill an SQE, flush, peek a batch, dispatch its next CQE, hand the batch back) or of
      the kernel (take a published SQE, post a CQE when there is room). */
  datatype Step<S, C> = Fill(x: S) | Flush | PeekBatch(count: u32) | Dispatch | HandBack | Take | Post(c: C)

  /** What went in and came out of both rings; `published` counts the SQEs flushed so far. */
  datatype Trace<S, C> = Trace(filled: seq<S>, published: nat, taken: seq<S>, posted: seq<C>, dispatched: seq<C>)

  /** `batch` CQEs are peeked and not handed back; `next` of them are dispatched. */
  datatype System<S, C> = System(u: Uring<S, C>, batch: nat, next: nat, t: Trace<S, C>)

  function Perform<S, C>(s: System<S, C>, step: Step<S, C>): System<S, C>
    requires s.u.sq.Shaped() && s.u.cq.Shaped()
  {
    match step
    case Fill(x) =>
      if s.u.sq.Ready() >= s.u.sq.Size() then s
      else s.(u := s.u.(sq := Push(s.u.sq, x)), t := s.t.(filled := s.t.filled + [x]))
    case Flush => s.(u := FlushSq(s.u), t := s.t.(published := |s.t.filled|))
    case Take =>
      if s.u.sq.head == s.u.sqKtail then s
      else s.(u := s.u.(sq := Advance(s.u.sq, 1)), t := s.t.(taken := s.t.taken + [Peek(s.u.sq, 0)]))
    case Post(c) =>
      if s.u.cq.Ready() >= s.u.cq.Size() then s
      else s.(u := s.u.(cq := Push(s.u.cq, c)), t := s.t.(posted := s.t.posted + [c]))
    case PeekBatch(count) =>
      if s.batch != 0 then s else s.(batch := BatchSize(s.u.cq, count), next := 0)
    case Dispatch =>
      if s.next >= s.batch then s
      else s.(next := s.next + 1, t := s.t.(dispatched := s.t.dispatched + [Peek(s.u.cq, s.next)]))
    case HandBack =>
      if s.next != s.batch then s else s.(u := s.u.(cq := Advance(s.u.cq, s.batch)), batch := 0, next := 0)
  }

  ghost predicate SqOk<S, C>(s: System<S, C>) {
    && Holds(s.u.sq, s.t.filled, |s.t.taken|)
    && s.t.taken == s.t.filled[..|s.t.taken|]
    && |s.t.taken| <= s.t.published <= |s.t.filled|
    && s.u.sqeHead == s.u.sqKtail == s.t.published % U32
  }

  ghost predicate CqOk<S, C>(s: System<S, C>) {
    && s.next <= s.batch && s.next <= |s.t.dispatched|
    && |s.t.dispatched| - s.next + s.batch <= |s.t.posted|
    && Holds(s.u.cq, s.t.posted, |s.t.dispatched| - s.next)
    && s.t.dispatched == s.t.posted[..|s.t.dispatched|]
  }

  ghost predicate Ok<S, C>(s: System<S, C>) {
    SqOk(s) && CqOk(s)
  }

  lemma SqStep<S, C>(s: System<S, C>, step: Step<S, C>)
    requires SqOk(s) == true && s.u.cq.Shaped()
    ensures SqOk(Perform(s, step)) == true
  {
    hide Holds, Push, Peek, Advance, Pow2;
    ReadyCounts(s.u.sq, s.t.filled, |s.t.taken|);
    match step
    case Fill(x) =>
      PushHolds(s.u.sq, s.t.filled, |s.t.taken|, x);
    case Take =>
      if s.u.sq.head != s.u.sqKtail {
        PeekHolds(s.u.sq, s.t.filled, |s.t.taken|, 0);
        AdvanceHolds(s.u.sq, s.t.filled, |s.t.taken|, 1);
      }
    case _ =>
  }

  lemma CqStep<S, C>(s: System<S, C>, step: Step<S, C>)
    requires CqOk(s) == true && s.u.sq.Shaped()
    ensures CqOk(Perform(s, step)) == true
  {
    hide Holds, Push, Peek, Advance, Pow2;
    var gone := |s.t.dispatched| - s.next;
    ReadyCounts(s.u.cq, s.t.posted, gone);
    match step
    case Post(c) =>
      PushHolds(s.u.cq, s.t.posted, gone, c);
    case Dispatch =>
      if s.next < s.batch {
        PeekHolds(s.u.cq, s.t.posted, gone, s.next);
      }
    case HandBack =>
      if s.next == s.batch {
        AdvanceHolds(s.u.cq, s.t.posted, gone, s.batch);
      }
    case _ =>
  }

  lemma StepOk<S, C>(s: System<S, C>, step: Step<S, C>)
    requires Ok(s) == true
    ensures Ok(Perform(s, step)) == true
    ensures Perform(s, step).u.sq.bits == s.u.sq.bits && Perform(s, step).u.cq.bits == s.u.cq.bits
  {
    SqStep(s, step);
    CqStep(s, step);
  }

  ghost function Run<S, C>(s: System<S, C>, steps: seq<Step<S, C>>): System<S, C>
    requires Ok(s) == true
    decreases |steps|
  {
    if steps == [] then s
    else
      StepOk(s, steps[0]);
      Run(Perform(s, steps[0]), steps[1..])
  }

  /** Freshly mapped rings: any contents, indices at zero. */
  function Mapped<S, C>(sqBits: nat, sqes: seq<S>, cqBits: nat, cqes: seq<C>): System<S, C> {
    System(Uring(Ring(sqBits, sqes, 0, 0), 0, 0, Ring(cqBits, cqes, 0, 0)), 0, 0, Trace([], 0, [], [], []))
  }

  lemma {:induction false} RunOk<S, C>(s: System<S, C>, steps: seq<Step<S, C>>)
    requires Ok(s) == true
    ensures Ok(Run(s, steps)) == true
    ensures Run(s, steps).u.sq.bits == s.u.sq.bits && Run(s, steps).u.cq.bits == s.u.cq.bits
    decreases |steps|
  {
    if steps != [] {
      StepOk(s, steps[0]);
      hide SqOk, CqOk, Perform;
      RunOk(Perform(s, steps[0]), steps[1..]);
    }
  }

  /** After any interleaving of worker and kernel steps: the kernel has taken the filled SQEs in order, each once
      and none unpublished; the worker has dispatched the posted CQEs in order, each once; and what is
      outstanding fits the rings. */
  lemma RingsAreFifos<S, C>(sqBits: nat, sqes: seq<S>, cqBits: nat, cqes: seq<C>, steps: seq<Step<S, C>>)
    requires sqBits < 32 && |sqes| == Pow2(sqBits) && cqBits < 32 && |cqes| == Pow2(cqBits)
    ensures Ok(Mapped(sqBits, sqes, cqBits, cqes))
    ensures var t := Run(Mapped(sqBits, sqes, cqBits, cqes), steps).t;
            && t.taken <= t.filled && |t.taken| <= t.published <= |t.filled| <= |t.taken| + Pow2(sqBits)
            && t.dispatched <= t.posted && |t.posted| <= |t.dispatched| + Pow2(cqBits)
  {
    var s := Mapped(sqBits, sqes, cqBits, cqes);
    RunOk(s, steps);
  }

  /** Nothing is refused while there is room, and everything published is there to take. */
  lemma RingsProgress<S, C>(s: System<S, C>)
    requires Ok(s) == true
    ensures s.u.sq.Ready() >= s.u.sq.Size() <==> |s.t.filled| == |s.t.taken| + s.u.sq.Size()
    ensures s.u.sq.head == s.u.sqKtail <==> |s.t.taken| == s.t.published
    ensures FlushSq(s.u).sq.Ready() == |s.t.filled| - |s.t.taken|
    ensures s.batch == 0 ==> s.u.cq.Ready() == |s.t.posted| - |s.t.dispatched|
  {
    ReadyCounts(s.u.sq, s.t.filled, |s.t.taken|);
    ReadyCounts(s.u.cq, s.t.posted, |s.t.dispatched| - s.next);
    SizeFits(s.u.sq.bits);
    WrapDistance(s.t.published, |s.t.taken|);
  }

  // ----- the rings as the worker holds them

  /** The mapped memory of both rings and the worker's private indices. */
  class RingMemory<S, C> {
    const sqBits: nat
    const cqBits: nat
    const sqes: array<S>
    const cqes: array<C>
    var sqeHead: u32
    var sqeTail: u32
    var sqKhead: u32
    var sqKtail: u32
    var cqKhead: u32
    var cqKtail: u32

    ghost function Value(): Uring<S, C>
      reads this, sqes, cqes
    {
      Uring(Ring(sqBits, sqes[..], sqKhead, sqeTail), sqeHead, sqKtail, Ring(cqBits, cqes[..], cqKhead, cqKtail))
    }

    ghost predicate Shaped()
      reads this
    {
      sqBits < 32 && sqes.Length == Pow2(sqBits) && cqBits < 32 && cqes.Length == Pow2(cqBits) && sqes != cqes as object
    }

    constructor (sqBits: nat, sqes: array<S>, cqBits: nat, cqes: array<C>)
      requires sqBits < 32 && sqes.Length == Pow2(sqBits) && cqBits < 32 && cqes.Length == Pow2(cqBits)
      requires sqes != cqes as object
      ensures Shaped() && this.sqes == sqes && this.cqes == cqes
      ensures Value() == Mapped(sqBits, sqes[..], cqBits, cqes[..]).u
    {
      this.sqBits, this.sqes, this.cqBits, this.cqes := sqBits, sqes, cqBits, cqes;
      sqeHead, sqeTail, sqKhead, sqKtail, cqKhead, cqKtail := 0, 0, 0, 0, 0, 0;
    }

    /** `get_sqe` and the caller's assignment of the whole SQE; false when the ring is full. */
    method GetSqe(x: S) returns (ok: bool)
      requires Shaped()
      modifies this`sqeTail, sqes
      ensures ok <==> old(Value()).sq.Ready() < Pow2(sqBits)
      ensures Value() == old(Value()).(sq := Push(old(Value()).sq, x))
    {
      var tail := sqeTail;
      if Sub32(tail, sqKhead) >= Pow2(sqBits) {
        return false;
      }
      sqeTail := Add32(tail, 1);
      MaskIsRemainder(tail, sqBits);
      sqes[And(tail, Pow2(sqBits) - 1)] := x;
      return true;
    }

    /** `flush_sq`: publish, and count what the kernel has not taken. */
    method Flush() returns (n: u32)
      requires Shaped()
      modifies this`sqeHead, this`sqKtail
      ensures Value() == FlushSq(old(Value())) && n == Value().sq.Ready()
    {
      var tail := sqeTail;
      if sqeHead != tail {
        sqeHead := tail;
        sqKtail := tail;
      }
      return Sub32(tail, sqKhead);
    }

    /** The kernel's side of `io_uring_enter` with GETEVENTS. */
    method GetEvents(held: seq<C>)
      requires Shaped()
      modifies this`cqKtail, cqes
      ensures Value() == old(Value()).(cq := PushAll(old(Value()).cq, held))
    {
      ghost var u := Value();
      for i := 0 to |held|
        invariant Value() == u.(cq := Value().cq) && Value().cq.Shaped()
        invariant PushAll(Value().cq, held[i..]) == PushAll(u.cq, held)
      {
        assert held[i..][1..] == held[i + 1..];
        PostOne(held[i]);
      }
    }

    method PostOne(c: C)
      requires Shaped()
      modifies this`cqKtail, cqes
      ensures Value() == old(Value()).(cq := Push(old(Value()).cq, c))
    {
      var tail := cqKtail;
      if Sub32(tail, cqKhead) < Pow2(cqBits) {
        cqKtail := Add32(tail, 1);
        MaskIsRemainder(tail, cqBits);
        cqes[And(tail, Pow2(cqBits) - 1)] := c;
      }
    }

    /** The slots of the next n completions. */
    method Collect(n: u32) returns (at: seq<nat>)
      requires Shaped()
      ensures |at| == n
      ensures forall i :: 0 <= i < |at| ==> at[i] < cqes.Length && cqes[at[i]] == Peek(Value().cq, i)
    {
      var head := cqKhead;
      at := [];
      for i := 0 to n
        invariant |at| == i
        invariant forall j :: 0 <= j < i ==> at[j] < cqes.Length && cqes[at[j]] == Peek(Value().cq, j)
      {
        MaskIsRemainder(Add32(head, i), cqBits);
        at := at + [And(Add32(head, i), Pow2(cqBits) - 1)];
      }
    }

    /** `peek_batch_cqe`: which slots hold the next completions. They are not consumed. `needsFlush` is what
        `cq_needs_flush` reads, and `held` what the kernel then posts. */
    method PeekBatch(count: u32, needsFlush: bool, held: seq<C>) returns (at: seq<nat>)
      requires Shaped()
      modifies this`cqKtail, cqes
      ensures Value() == Fetched(old(Value()), needsFlush, held)
      ensures |at| == BatchSize(Value().cq, count)
      ensures forall i :: 0 <= i < |at| ==> at[i] < cqes.Length && cqes[at[i]] == Peek(Value().cq, i)
    {
      var flushed := false;
      while true
        invariant !flushed ==> Value() == old(Value())
        invariant flushed ==> old(Value()).cq.Ready() == 0 && needsFlush && Value() == Fetched(old(Value()), true, held)
        decreases !flushed
      {
        var ready := Sub32(cqKtail, cqKhead);
        if ready > 0 {
          at := Collect(if ready < count then ready else count);
          return;
        }
        if flushed || !needsFlush {
          return [];
        }
        GetEvents(held);
        flushed := true;
      }
    }

    /** `cq_advance` */
    method AdvanceCq(nr: u32)
      modifies this`cqKhead
      ensures Value() == old(Value()).(cq := Advance(old(Value()).cq, nr))
    {
      if nr > 0 {
        cqKhead := Add32(cqKhead, nr);
      }
    }
  }
}
