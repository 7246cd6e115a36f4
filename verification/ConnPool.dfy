// io_uring/io_uring_linux.c.v: the worker's pool of connection slots, a stack of free slots with a low-water mark.
module ConnPool {
  import opened Bytes

  /** A slot. A free slot has no owner. */
  datatype Connection = Connection(
    owned: bool,
    fd: int,
    readBuf: seq<byte>,
    responseBuffer: seq<byte>,
    bytesSent: nat,
    closeAfterSend: bool,
    idle: bool,
    readDeadline: nat,
    writeDeadline: nat,
    bodyDrain: int,
    borrowing: bool,
    sendTotal: nat,
    awaitingFd: int)

  function Unused(): Connection {
    Connection(false, 0, [], [], 0, false, false, 0, 0, 0, false, 0, -1)
  }

  /** What an accepted socket starts from, whatever the slot served before. */
  function Accepted(fd: int): Connection {
    Unused().(owned := true, fd := fd)
  }

  /** The slots, the stack of free ones (its first `freeTop` entries), and the lowest slot ever handed out. */
  datatype Pool = Pool(conns: seq<Connection>, freeStack: seq<nat>, freeTop: nat, usedLo: nat)

  function NewPool(n: nat): Pool {
    Pool(seq(n, _ => Unused()), seq(n, i => i), n, n)
  }

  predicate StackOk(p: Pool) {
    p.freeTop <= |p.freeStack| && forall i :: 0 <= i < p.freeTop ==> p.freeStack[i] < |p.conns|
  }

  /** `pool_acquire`: the top of the stack, or none. */
  function Acquire(p: Pool, fd: int): (Pool, Option<nat>)
    requires StackOk(p)
  {
    if p.freeTop == 0 then (p, None)
    else
      var idx := p.freeStack[p.freeTop - 1];
      (p.(conns := p.conns[idx := Accepted(fd)], freeTop := p.freeTop - 1, usedLo := Min(idx, p.usedLo)), Some(idx))
  }

  /** `pool_release`: a slot without owner is left alone. */
  function Release(p: Pool, idx: nat): Pool
    requires idx < |p.conns|
  {
    if !p.conns[idx].owned then p
    else
      var p1 := p.(conns := p.conns[idx := Unused().(fd := p.conns[idx].fd)]);
      if p.freeTop < |p.freeStack| then p1.(freeStack := p.freeStack[p.freeTop := idx], freeTop := p.freeTop + 1)
      else p1
  }

  // ----- what every sequence of acquires and releases keeps

  /** The slots in use and the most there ever were at once. */
  datatype Usage = Usage(live: set<nat>, peak: nat)

  /** Where a slot is: in use, or at one position of the stack. */
  ghost predicate Located(p: Pool, live: set<nat>, at: seq<int>) {
    && |p.conns| == |p.freeStack| == |at| && p.freeTop <= |at|
    && (forall i :: 0 <= i < p.freeTop ==> p.freeStack[i] < |at| && at[p.freeStack[i]] == i)
    && (forall x :: 0 <= x < |at| ==> at[x] < p.freeTop && (at[x] >= 0 ==> p.freeStack[at[x]] == x))
    && (forall x :: 0 <= x < |at| ==> (p.conns[x].owned <==> x in live) && (x in live <==> at[x] < 0))
    && (forall x :: x in live ==> 0 <= x < |at|)
  }

  /** Below `usedLo` the stack is as it was at first; at and above it are the slots ever handed out. */
  ghost predicate MarkOk(p: Pool) {
    && p.usedLo <= p.freeTop <= |p.freeStack|
    && (forall i :: 0 <= i < p.usedLo ==> p.freeStack[i] == i)
    && (forall i :: p.usedLo <= i < p.freeTop ==> p.usedLo <= p.freeStack[i])
  }

  ghost predicate Ok(p: Pool, u: Usage, at: seq<int>) {
    && Located(p, u.live, at) && MarkOk(p)
    && |u.live| == |p.conns| - p.freeTop
    && u.peak == |p.conns| - p.usedLo
    && (forall x :: x in u.live ==> p.usedLo <= x)
  }

  function Used(u: Usage, live: set<nat>): Usage {
    Usage(live, Max(u.peak, |live|))
  }

  lemma OkShape(p: Pool, u: Usage, at: seq<int>)
    requires Ok(p, u, at) == true
    ensures StackOk(p)
  {
  }

  lemma TopFits(p: Pool)
    requires StackOk(p)
    ensures p.freeTop <= |p.freeStack| && (p.freeTop > 0 ==> p.freeStack[p.freeTop - 1] < |p.conns|)
  {
  }

  lemma AcquireOk(p: Pool, u: Usage, at: seq<int>, fd: int) returns (at1: seq<int>)
    requires Ok(p, u, at) == true
    ensures StackOk(p)
    ensures var (p1, r) := Acquire(p, fd);
            && (r.None? <==> |u.live| == |p.conns|)
            && (r.None? ==> p1 == p && at1 == at)
            && (r.Some? ==> r.value !in u.live && r.value < |p.conns| && p1.conns[r.value] == Accepted(fd))
            && (r.Some? ==> Ok(p1, Used(u, u.live + {r.value}), at1) == true)
  {
    at1 := at;
    if p.freeTop > 0 {
      var idx := p.freeStack[p.freeTop - 1];
      at1 := at[idx := -1];
      assert at[idx] == p.freeTop - 1;
      LocatedAcquire(p, u.live, at, fd);
      MarkAcquire(p, fd);
      hide Located, MarkOk;
    }
  }

  lemma LocatedAcquire(p: Pool, live: set<nat>, at: seq<int>, fd: int)
    requires Located(p, live, at) == true && p.freeTop > 0
    ensures var idx := p.freeStack[p.freeTop - 1];
            idx < |at| && idx !in live && Located(Acquire(p, fd).0, live + {idx}, at[idx := -1]) == true
  {
  }

  lemma MarkAcquire(p: Pool, fd: int)
    requires MarkOk(p) == true && p.freeTop > 0 && StackOk(p)
    ensures MarkOk(Acquire(p, fd).0) == true
    ensures var idx := p.freeStack[p.freeTop - 1];
            if p.freeTop == p.usedLo then idx == p.usedLo - 1 else idx >= p.usedLo
  {
  }

  lemma ReleaseOk(p: Pool, u: Usage, at: seq<int>, idx: nat) returns (at1: seq<int>)
    requires Ok(p, u, at) == true && idx < |p.conns|
    ensures Ok(Release(p, idx), Used(u, u.live - {idx}), at1) == true
    ensures idx !in u.live ==> Release(p, idx) == p
  {
    at1 := at;
    assert |u.live| <= u.peak;
    if idx in u.live {
      at1 := at[idx := p.freeTop];
      NotFull(p, u, at);
      LocatedRelease(p, u.live, at, idx);
      MarkRelease(p, idx);
      assert |u.live - {idx}| == |u.live| - 1;
      hide Located, MarkOk;
    } else {
      assert u.live - {idx} == u.live;
    }
  }

  /** The stack has room for every slot in use. */
  lemma NotFull(p: Pool, u: Usage, at: seq<int>)
    requires Ok(p, u, at) == true && u.live != {}
    ensures p.freeTop < |p.freeStack|
  {
    var x :| x in u.live;
    assert {x} <= u.live;
    hide Located, MarkOk;
    assert |u.live| == |u.live - {x}| + 1;
  }

  lemma LocatedRelease(p: Pool, live: set<nat>, at: seq<int>, idx: nat)
    requires Located(p, live, at) == true && idx in live && p.freeTop < |p.freeStack|
    ensures idx < |p.conns| && Located(Release(p, idx), live - {idx}, at[idx := p.freeTop]) == true
  {
  }

  lemma MarkRelease(p: Pool, idx: nat)
    requires MarkOk(p) == true && idx < |p.conns| && p.usedLo <= idx && p.freeTop < |p.freeStack|
    ensures MarkOk(Release(p, idx)) == true
  {
  }

  // ----- runs

  /** A socket is accepted, or a slot is released: any slot, in use or not. */
  datatype Op = Accept(fd: int) | Drop(idx: nat)

  datatype State = State(p: Pool, u: Usage)

  function Perform(s: State, op: Op): State
    requires StackOk(s.p)
  {
    match op
    case Accept(fd) =>
      var (p, r) := Acquire(s.p, fd);
      State(p, if r.Some? then Used(s.u, s.u.live + {r.value}) else s.u)
    case Drop(idx) =>
      if idx >= |s.p.conns| then s else State(Release(s.p, idx), Used(s.u, s.u.live - {idx}))
  }

  ghost predicate Good(s: State) {
    exists at: seq<int> :: Ok(s.p, s.u, at)
  }

  lemma GoodStack(s: State)
    requires Good(s) == true
    ensures StackOk(s.p)
  {
    var at :| Ok(s.p, s.u, at);
  }

  lemma PerformGood(s: State, op: Op)
    requires Good(s) == true && StackOk(s.p)
    ensures Good(Perform(s, op)) == true && |Perform(s, op).p.conns| == |s.p.conns|
  {
    var at :| Ok(s.p, s.u, at) == true;
    hide Ok;
    match op
    case Accept(fd) =>
      var at1 := AcquireOk(s.p, s.u, at, fd);
    case Drop(idx) =>
      if idx < |s.p.conns| {
        var at1 := ReleaseOk(s.p, s.u, at, idx);
      }
  }

  ghost function Run(s: State, ops: seq<Op>): State
    requires Good(s) == true
    decreases |ops|
  {
    if ops == [] then s
    else
      GoodStack(s);
      PerformGood(s, ops[0]);
      Run(Perform(s, ops[0]), ops[1..])
  }

  function NewState(n: nat): State {
    State(NewPool(n), Usage({}, 0))
  }

  lemma NewGood(n: nat)
    ensures Good(NewState(n)) == true
  {
    var at := seq(n, i => i);
    assert Ok(NewPool(n), Usage({}, 0), at);
  }

  lemma {:induction false} RunGood(s: State, ops: seq<Op>)
    requires Good(s) == true
    ensures Good(Run(s, ops)) == true && |Run(s, ops).p.conns| == |s.p.conns|
    decreases |ops|
  {
    if ops != [] {
      GoodStack(s);
      PerformGood(s, ops[0]);
      hide Good, Perform;
      RunGood(Perform(s, ops[0]), ops[1..]);
    }
  }

  /** After any acquires and releases, repeated releases included: the slots in use and the free stack partition
      all slots, and `usedLo` is the capacity less the peak, so the sweep from it up reaches every slot in use. */
  lemma PoolPartitions(n: nat, ops: seq<Op>)
    ensures Good(NewState(n)) == true
    ensures var s := Run(NewState(n), ops);
            && |s.p.conns| == n && s.p.freeTop <= |s.p.freeStack|
            && (forall x :: 0 <= x < n ==> (x in s.u.live <==> s.p.conns[x].owned))
            && (forall x :: 0 <= x < n ==> (x in s.u.live <==> x !in s.p.freeStack[..s.p.freeTop]))
            && (forall i, j :: 0 <= i < j < s.p.freeTop ==> s.p.freeStack[i] != s.p.freeStack[j])
            && (forall x :: x in s.u.live ==> s.p.usedLo <= x < n)
            && |s.u.live| == n - s.p.freeTop && s.p.usedLo == n - s.u.peak
  {
    NewGood(n);
    RunGood(NewState(n), ops);
    var s := Run(NewState(n), ops);
    var at :| Ok(s.p, s.u, at);
    hide Run;
    forall x | 0 <= x < n ensures x in s.u.live <==> x !in s.p.freeStack[..s.p.freeTop] {
      if x !in s.u.live {
        assert s.p.freeStack[..s.p.freeTop][at[x]] == x;
      }
    }
  }

  /** The next socket gets a slot not in use, reset; it is turned away only when all slots are in use. */
  lemma NextSlot(n: nat, ops: seq<Op>, fd: int)
    ensures Good(NewState(n)) == true && StackOk(Run(NewState(n), ops).p)
    ensures var s := Run(NewState(n), ops);
            var (p, r) := Acquire(s.p, fd);
            match r
            case None => |s.u.live| == n
            case Some(x) => x < n && x !in s.u.live && p.conns[x] == Accepted(fd)
  {
    NewGood(n);
    RunGood(NewState(n), ops);
    var s := Run(NewState(n), ops);
    GoodStack(s);
    var at :| Ok(s.p, s.u, at) == true;
    hide Run, Ok;
    var at1 := AcquireOk(s.p, s.u, at, fd);
  }

  // ----- the pool as the worker holds it

  const MAX_CONN_PER_WORKER := 32768

  class Worker {
    const conns: array<Connection>
    const freeStack: array<nat>
    var freeTop: nat
    var usedLo: nat
    ghost var usage: Usage
    ghost var at: seq<int>

    ghost function Value(): Pool
      reads this, conns, freeStack
    {
      Pool(conns[..], freeStack[..], freeTop, usedLo)
    }

    ghost predicate Valid()
      reads this, conns, freeStack
    {
      Ok(Value(), usage, at)
    }

    /** `pool_init` */
    constructor ()
      ensures Valid() == true && Value() == NewPool(MAX_CONN_PER_WORKER) && usage == Usage({}, 0)
      ensures fresh(conns) && fresh(freeStack)
    {
      conns := new Connection[MAX_CONN_PER_WORKER](_ => Unused());
      freeStack := new nat[MAX_CONN_PER_WORKER](_ => 0);
      freeTop, usedLo := 0, MAX_CONN_PER_WORKER;
      usage, at := Usage({}, 0), seq(MAX_CONN_PER_WORKER, i => i);
      new;
      for i := 0 to MAX_CONN_PER_WORKER
        invariant freeTop == i && usedLo == MAX_CONN_PER_WORKER
        invariant forall j :: 0 <= j < i ==> freeStack[j] == j
        invariant forall j :: 0 <= j < MAX_CONN_PER_WORKER ==> conns[j] == Unused()
        invariant usage == Usage({}, 0) && at == seq(MAX_CONN_PER_WORKER, i => i)
      {
        freeStack[freeTop] := i;
        freeTop := freeTop + 1;
      }
      assert Value() == NewPool(MAX_CONN_PER_WORKER);
      assert Ok(NewPool(MAX_CONN_PER_WORKER), usage, at);
    }

    /** `pool_acquire`: a slot that was not in use, reset for fd. */
    method PoolAcquire(fd: int) returns (r: Option<nat>)
      requires Valid() == true
      modifies this, conns
      ensures Valid() == true && StackOk(old(Value())) && (Value(), r) == Acquire(old(Value()), fd)
      ensures usage == if r.Some? then Used(old(usage), old(usage).live + {r.value}) else old(usage)
    {
      hide Ok, StackOk;
      ghost var p := Value();
      OkShape(p, usage, at);
      TopFits(p);
      ghost var at1 := AcquireOk(p, usage, at, fd);
      if freeTop == 0 {
        return None;
      }
      freeTop := freeTop - 1;
      var idx := freeStack[freeTop];
      if idx < usedLo {
        usedLo := idx;
      }
      conns[idx] := Accepted(fd);
      assert conns[..] == p.conns[idx := Accepted(fd)];
      usage := Used(usage, usage.live + {idx});
      at := at1;
      return Some(idx);
    }

    /** `pool_release`: a second release of the same slot changes nothing. */
    method PoolRelease(idx: nat)
      requires Valid() == true && idx < conns.Length
      modifies this, conns, freeStack
      ensures Valid() == true && Value() == Release(old(Value()), idx)
      ensures usage == Used(old(usage), old(usage).live - {idx})
    {
      hide Ok;
      ghost var p := Value();
      ghost var at1 := ReleaseOk(p, usage, at, idx);
      ghost var u1 := Used(usage, usage.live - {idx});
      if conns[idx].owned {
        conns[idx] := Unused().(fd := conns[idx].fd);
        assert conns[..] == p.conns[idx := Unused().(fd := p.conns[idx].fd)];
        if freeTop < freeStack.Length {
          freeStack[freeTop] := idx;
          assert freeStack[..] == p.freeStack[freeTop := idx];
          freeTop := freeTop + 1;
        }
      }
      usage, at := u1, at1;
    }
  }
}
