// The probing discipline of the stream table (http2/streams.v), on the sequence of ids its slots hold.
// A slot holding 0 is empty. Every function here follows one loop of the table; the lemmas say that, seen
// as a set of ids, the loops look up, insert and delete.
module Probing {

  const SLOTS: nat := 256

  type Slots = s: seq<nat> | |s| == SLOTS witness seq(SLOTS, _ => 0)

  type Slot = i: nat | i < SLOTS

  function Home(id: nat): Slot {
    id / 2 % SLOTS
  }

  function Next(i: Slot): Slot {
    (i + 1) % SLOTS
  }

  /** How many steps of `Next` lead from a to b. */
  function Gap(a: Slot, b: Slot): (d: Slot)
    ensures d == 0 <==> a == b
    ensures b == (a + d) % SLOTS
  {
    if a <= b then b - a else b - a + SLOTS
  }

  function FindFrom(s: Slots, id: nat, i: Slot, steps: nat): int
    decreases steps
  {
    if steps == 0 then -1
    else if s[i] == id then i
    else if s[i] == 0 then -1
    else FindFrom(s, id, Next(i), steps - 1)
  }

  function Find(s: Slots, id: nat): int {
    if id == 0 then -1 else FindFrom(s, id, Home(id), |s|)
  }

  function PutFrom(s: Slots, id: nat, i: Slot, steps: nat): Slots
    decreases steps
  {
    if steps == 0 || s[i] == id then s
    else if s[i] == 0 then s[i := id]
    else PutFrom(s, id, Next(i), steps - 1)
  }

  function Put(s: Slots, id: nat): Slots {
    PutFrom(s, id, Home(id), |s|)
  }

  /** Whether an entry at j whose home is `home` must not move back into the hole. */
  predicate Stays(hole: Slot, j: Slot, home: Slot) {
    if hole <= j then hole < home <= j else home > hole || home <= j
  }

  /** Backward-shift deletion: the run after j is walked to its end, filling the hole as it goes. */
  function Shift(s: Slots, hole: Slot, j: Slot, steps: nat): Slots
    decreases steps
  {
    var next := Next(j);
    if steps == 0 || s[next] == 0 then s[hole := 0]
    else if Stays(hole, next, Home(s[next])) then Shift(s, hole, next, steps - 1)
    else Shift(s[hole := s[next]], next, next, steps - 1)
  }

  lemma ShiftUnfold(s: Slots, hole: Slot, j: Slot, steps: nat)
    ensures s[Next(j)] == 0 ==> Shift(s, hole, j, steps) == s[hole := 0]
    ensures steps > 0 && s[Next(j)] != 0 && Stays(hole, Next(j), Home(s[Next(j)])) ==>
              Shift(s, hole, j, steps) == Shift(s, hole, Next(j), steps - 1)
    ensures steps > 0 && s[Next(j)] != 0 && !Stays(hole, Next(j), Home(s[Next(j)])) ==>
              Shift(s, hole, j, steps) == Shift(s[hole := s[Next(j)]], Next(j), Next(j), steps - 1)
  {
  }

  function Remove(s: Slots, id: nat): Slots {
    var hole := Find(s, id);
    if hole < 0 then s else
      assert 0 <= hole < SLOTS by { FindRange(s, id, Home(id), |s|); }
      Shift(s, hole, hole, |s|)
  }

  /** The nonzero ids of a run of slots, in order. */
  function Live(q: seq<nat>): seq<nat> {
    if q == [] then [] else (if q[0] != 0 then [q[0]] else []) + Live(q[1..])
  }

  /** The live ids in slot order. */
  function Ids(s: Slots): seq<nat> {
    Live(s)
  }

  // ----- what makes a sequence of slots a table

  /** k lies on the probe path from home (included) to i (excluded). */
  predicate OnPath(home: Slot, k: Slot, i: Slot) {
    Gap(home, k) < Gap(home, i)
  }

  ghost predicate Reachable(s: Slots) {
    forall i: Slot, k: Slot {:trigger OnPath(Home(s[i]), k, i)} :: s[i] != 0 && OnPath(Home(s[i]), k, i) ==> s[k] != 0
  }

  ghost predicate Distinct(s: Slots) {
    forall i: Slot, j: Slot :: i != j && s[i] == s[j] ==> s[i] == 0
  }

  ghost predicate Valid(s: Slots) {
    Reachable(s) && Distinct(s)
  }

  ghost predicate Holds(s: Slots, id: nat) {
    id != 0 && id in s
  }

  ghost predicate HasRoom(s: Slots) {
    0 in s
  }

  // ----- lookup

  lemma FindRange(s: Slots, id: nat, i: Slot, steps: nat)
    ensures -1 <= FindFrom(s, id, i, steps) < SLOTS
    ensures FindFrom(s, id, i, steps) >= 0 ==> s[FindFrom(s, id, i, steps)] == id
    decreases steps
  {
  }

  /** Nothing before the probe position is empty or holds id. */
  ghost predicate Probed(s: Slots, id: nat, i: Slot) {
    forall k: Slot :: OnPath(Home(id), k, i) ==> s[k] != 0 && s[k] != id
  }

  lemma ProbeNext(s: Slots, id: nat, i: Slot)
    requires Probed(s, id, i) && s[i] != 0 && s[i] != id
    requires Gap(Home(id), i) < SLOTS - 1
    ensures Probed(s, id, Next(i)) && Gap(Home(id), Next(i)) == Gap(Home(id), i) + 1
  {
    forall k: Slot | OnPath(Home(id), k, Next(i))
      ensures s[k] != 0 && s[k] != id
    {
      assert OnPath(Home(id), k, i) || k == i;
    }
  }

  lemma {:induction false} FindFromSound(s: Slots, id: nat, i: Slot, steps: nat)
    requires Valid(s) && id != 0
    requires Probed(s, id, i) && Gap(Home(id), i) + steps == SLOTS
    ensures FindFrom(s, id, i, steps) < 0 ==> id !in s
    decreases steps
  {
    if s[i] == id {
    } else if s[i] == 0 {
      forall p: Slot ensures s[p] != id {
        assert s[p] == id ==> OnPath(Home(id), i, p) || p == i || OnPath(Home(id), p, i);
      }
    } else if steps == 1 {
      forall p: Slot ensures s[p] != id {
        assert p == i || OnPath(Home(id), p, i);
      }
      assert FindFrom(s, id, i, steps) < 0;
    } else {
      ProbeNext(s, id, i);
      FindFromSound(s, id, Next(i), steps - 1);
    }
  }

  /** Lookup in the table is lookup in the set of its ids, and it returns the id's own slot. */
  lemma FindCorrect(s: Slots, id: nat)
    requires Valid(s)
    ensures Find(s, id) >= 0 <==> Holds(s, id)
    ensures Find(s, id) < SLOTS
    ensures Find(s, id) >= 0 ==> s[Find(s, id)] == id
    ensures forall i: Slot :: id != 0 && s[i] == id ==> Find(s, id) == i
  {
    FindRange(s, id, Home(id), |s|);
    if id != 0 {
      FindFromSound(s, id, Home(id), SLOTS);
    }
  }

  /** An id that is held is found where it is. */
  lemma FindAt(s: Slots, id: nat, i: Slot)
    requires Valid(s) == true && Holds(s, id)
    ensures 0 <= Find(s, id) < SLOTS && (Find(s, id) == i <==> s[i] == id)
  {
    FindCorrect(s, id);
  }

  // ----- insertion

  lemma {:induction false} PutFromSound(s: Slots, id: nat, i: Slot, steps: nat)
    requires Valid(s) && id != 0
    requires Probed(s, id, i) && Gap(Home(id), i) + steps == SLOTS
    ensures Valid(PutFrom(s, id, i, steps))
    ensures id in s || !HasRoom(s) ==> PutFrom(s, id, i, steps) == s
    ensures id !in s && HasRoom(s) ==> exists p: Slot :: s[p] == 0 && PutFrom(s, id, i, steps) == s[p := id]
    decreases steps
  {
    if s[i] == id {
    } else if s[i] == 0 {
      forall p: Slot ensures s[p] != id {
        assert s[p] == id ==> OnPath(Home(id), i, p) || p == i || OnPath(Home(id), p, i);
      }
    } else if steps == 1 {
      forall p: Slot ensures s[p] != id && s[p] != 0 {
        assert p == i || OnPath(Home(id), p, i);
      }
      assert PutFrom(s, id, Next(i), 0) == s;
    } else {
      ProbeNext(s, id, i);
      PutFromSound(s, id, Next(i), steps - 1);
    }
  }

  /** Insertion keeps the table valid and adds exactly one id, in a slot that was empty; a full table is left alone. */
  lemma PutCorrect(s: Slots, id: nat)
    requires Valid(s) && id != 0
    ensures Valid(Put(s, id))
    ensures id in s || !HasRoom(s) ==> Put(s, id) == s
    ensures id !in s && HasRoom(s) ==> exists p: Slot :: s[p] == 0 && Put(s, id) == s[p := id]
    ensures HasRoom(s) ==> forall x: nat :: Holds(Put(s, id), x) <==> Holds(s, x) || x == id
  {
    PutFromSound(s, id, Home(id), SLOTS);
    if id !in s && HasRoom(s) {
      var p: Slot :| s[p] == 0 && Put(s, id) == s[p := id];
      InsertedIds(s, p, id);
    }
  }

  lemma InsertedIds(s: Slots, p: Slot, id: nat)
    requires s[p] == 0 && id != 0
    ensures forall x: nat :: Holds(s[p := id], x) <==> Holds(s, x) || x == id
  {
    var r: Slots := s[p := id];
    forall x: nat ensures Holds(r, x) <==> Holds(s, x) || x == id {
      if Holds(s, x) {
        var i: Slot :| s[i] == x;
        assert r[i] == x;
      }
      assert r[p] == id;
    }
  }

  // ----- deletion

  /** Distinct, were the (stale) content of the hole left out. */
  ghost predicate DistinctBut(s: Slots, hole: Slot) {
    forall i: Slot, j: Slot :: i != j && i != hole && j != hole && s[i] == s[j] ==> s[i] == 0
  }

  /** Every slot from the hole up to j is in use. */
  ghost predicate Scanned(s: Slots, hole: Slot, j: Slot) {
    forall k: Slot :: Gap(hole, k) <= Gap(hole, j) ==> s[k] != 0
  }

  /** No entry between the hole and j needs the hole on its probe path. */
  ghost predicate Settled(s: Slots, hole: Slot, j: Slot) {
    forall i: Slot :: 0 < Gap(hole, i) <= Gap(hole, j) && s[i] != 0 ==> !OnPath(Home(s[i]), hole, i)
  }

  lemma StaysIsPathFree(hole: Slot, j: Slot, home: Slot)
    requires hole != j
    ensures Stays(hole, j, home) <==> !OnPath(home, hole, j)
  {
  }

  ghost predicate ShiftReady(s: Slots, hole: Slot, j: Slot) {
    Reachable(s) && DistinctBut(s, hole) && Scanned(s, hole, j) && Settled(s, hole, j)
  }

  /** x is in use somewhere other than in the hole. */
  ghost predicate HoldsBut(s: Slots, hole: Slot, x: nat) {
    exists i: Slot :: i != hole && s[i] == x && x != 0
  }

  lemma PathThroughHole(home: Slot, hole: Slot, j: Slot, i: Slot)
    requires OnPath(home, hole, i) && Gap(hole, j) < SLOTS - 1
    ensures OnPath(home, Next(j), i) || Gap(hole, i) <= Gap(hole, j) || i == Next(j)
  {
  }

  lemma ShiftDone(s: Slots, hole: Slot, j: Slot)
    requires ShiftReady(s, hole, j) && s[Next(j)] == 0
    ensures Valid(s[hole := 0])
    ensures forall x: nat :: Holds(s[hole := 0], x) <==> HoldsBut(s, hole, x)
  {
    var r: Slots := s[hole := 0];
    forall i: Slot, k: Slot | r[i] != 0 && OnPath(Home(r[i]), k, i)
      ensures r[k] != 0
    {
      if k == hole {
        PathThroughHole(Home(s[i]), hole, j, i);
        assert false;
      }
    }
    forall x: nat ensures Holds(r, x) <==> HoldsBut(s, hole, x) {
      if HoldsBut(s, hole, x) {
        var i: Slot :| i != hole && s[i] == x;
        assert r[i] == x;
      }
    }
  }

  lemma GapStep(hole: Slot, j: Slot, free: Slot)
    requires Gap(hole, free) > Gap(hole, j)
    ensures Gap(Next(j), free) + 1 == Gap(j, free)
    ensures hole != Next(j) && Gap(hole, Next(j)) == Gap(hole, j) + 1
  {
  }

  lemma ShiftSkip(s: Slots, hole: Slot, j: Slot, free: Slot)
    requires ShiftReady(s, hole, j) && s[free] == 0 && s[Next(j)] != 0
    requires Stays(hole, Next(j), Home(s[Next(j)]))
    ensures ShiftReady(s, hole, Next(j))
    ensures Gap(Next(j), free) + 1 == Gap(j, free)
  {
    assert Gap(hole, free) > Gap(hole, j);
    GapStep(hole, j, free);
    hide Reachable, DistinctBut;
    StaysIsPathFree(hole, Next(j), Home(s[Next(j)]));
    forall i: Slot | Gap(hole, i) <= Gap(hole, Next(j))
      ensures Gap(hole, i) <= Gap(hole, j) || i == Next(j)
    {
    }
  }

  /** Moving the entry at `next` into the hole keeps all probe paths in use. */
  lemma MoveReachable(s: Slots, hole: Slot, next: Slot)
    requires Reachable(s) && hole != next && s[hole] != 0 && s[next] != 0
    requires OnPath(Home(s[next]), hole, next)
    ensures Reachable(s[hole := s[next]])
  {
    var r: Slots := s[hole := s[next]];
    forall i: Slot, k: Slot | r[i] != 0 && OnPath(Home(r[i]), k, i)
      ensures r[k] != 0
    {
      if i == hole {
        assert OnPath(Home(s[next]), k, next);
      }
    }
  }

  lemma MoveDistinct(s: Slots, hole: Slot, next: Slot)
    requires DistinctBut(s, hole) && hole != next
    ensures DistinctBut(s[hole := s[next]], next)
  {
    var r: Slots := s[hole := s[next]];
    forall a: Slot, b: Slot | a != b && a != next && b != next && r[a] == r[b]
      ensures r[a] == 0
    {
      assert s[if a == hole then next else a] == s[if b == hole then next else b];
    }
  }

  lemma MoveHolds(s: Slots, hole: Slot, next: Slot, x: nat)
    requires hole != next && s[next] != 0
    ensures HoldsBut(s[hole := s[next]], next, x) <==> HoldsBut(s, hole, x)
  {
    var r: Slots := s[hole := s[next]];
    if HoldsBut(s, hole, x) {
      var i: Slot :| i != hole && s[i] == x;
      assert r[if i == next then hole else i] == x;
    }
    if HoldsBut(r, next, x) {
      var i: Slot :| i != next && r[i] == x;
      assert s[if i == hole then next else i] == x;
    }
  }

  lemma ShiftMove(s: Slots, hole: Slot, j: Slot, free: Slot)
    requires ShiftReady(s, hole, j) && s[free] == 0 && s[Next(j)] != 0
    requires !Stays(hole, Next(j), Home(s[Next(j)]))
    ensures ShiftReady(s[hole := s[Next(j)]], Next(j), Next(j))
    ensures s[hole := s[Next(j)]][free] == 0
    ensures Gap(Next(j), free) + 1 == Gap(j, free)
  {
    var next := Next(j);
    assert Gap(hole, free) > Gap(hole, j);
    assert s[hole] != 0 by { assert Gap(hole, hole) == 0; }
    GapStep(hole, j, free);
    hide Reachable, DistinctBut, Next;
    StaysIsPathFree(hole, next, Home(s[next]));
    MoveReachable(s, hole, next);
    MoveDistinct(s, hole, next);
  }

  lemma {:induction false} ShiftSound(s: Slots, hole: Slot, j: Slot, steps: nat, free: Slot)
    requires ShiftReady(s, hole, j) && s[free] == 0 && Gap(j, free) <= steps
    ensures Valid(Shift(s, hole, j, steps))
    ensures forall x: nat :: Holds(Shift(s, hole, j, steps), x) <==> HoldsBut(s, hole, x)
    decreases steps
  {
    assert s[j] != 0;
    if s[Next(j)] == 0 {
      ShiftDone(s, hole, j);
    } else if Stays(hole, Next(j), Home(s[Next(j)])) {
      ShiftSkip(s, hole, j, free);
      ShiftSound(s, hole, Next(j), steps - 1, free);
    } else {
      ShiftMove(s, hole, j, free);
      forall x: nat { MoveHolds(s, hole, Next(j), x); }
      ShiftSound(s[hole := s[Next(j)]], Next(j), Next(j), steps - 1, free);
    }
  }

  /** Deletion keeps every other entry reachable from its home slot and removes exactly one id. */
  lemma RemoveCorrect(s: Slots, id: nat)
    requires Valid(s) && HasRoom(s)
    ensures Valid(Remove(s, id))
    ensures forall x: nat :: Holds(Remove(s, id), x) <==> Holds(s, x) && x != id
  {
    FindCorrect(s, id);
    var hole := Find(s, id);
    if hole >= 0 {
      var free: Slot :| s[free] == 0;
      ShiftSound(s, hole, hole, SLOTS, free);
      forall x: nat ensures HoldsBut(s, hole, x) <==> Holds(s, x) && x != id {
        if Holds(s, x) && x != id {
          var i: Slot :| s[i] == x;
          assert i != hole;
        }
      }
    }
  }

  lemma RemoveAbsent(s: Slots, id: nat)
    requires Find(s, id) < 0
    ensures Remove(s, id) == s
  {
  }

  /** Deletion is the shifting loop started at the slot of the id. */
  lemma RemoveReady(s: Slots, id: nat)
    requires Valid(s) == true && HasRoom(s) && Holds(s, id)
    ensures var hole := Find(s, id);
            && 0 <= hole < SLOTS && s[hole] == id && ShiftReady(s, hole, hole)
            && Remove(s, id) == Shift(s, hole, hole, |s|)
  {
    FindCorrect(s, id);
    hide Shift;
  }

  // ----- enumeration

  lemma {:induction false} LiveExact(q: seq<nat>)
    requires forall i, j :: 0 <= i < j < |q| && q[i] == q[j] ==> q[i] == 0
    ensures forall x: nat :: x in Live(q) <==> x != 0 && x in q
    ensures forall a, b :: 0 <= a < b < |Live(q)| ==> Live(q)[a] != Live(q)[b]
  {
    if q != [] {
      LiveExact(q[1..]);
      assert q == [q[0]] + q[1..];
      assert q[0] == 0 || q[0] !in q[1..];
    }
  }

  /** The enumeration lists each live id exactly once. */
  lemma IdsExact(s: Slots)
    requires Distinct(s)
    ensures forall x: nat :: x in Ids(s) <==> Holds(s, x)
    ensures forall a, b :: 0 <= a < b < |Ids(s)| ==> Ids(s)[a] != Ids(s)[b]
  {
    LiveExact(s);
  }

  lemma {:induction false} LiveNone(q: seq<nat>)
    requires forall i :: 0 <= i < |q| ==> q[i] == 0
    ensures Live(q) == []
  {
    if q != [] {
      LiveNone(q[1..]);
    }
  }

  lemma {:induction false} LiveSnoc(q: seq<nat>, x: nat)
    ensures Live(q + [x]) == Live(q) + (if x != 0 then [x] else [])
  {
    if q != [] {
      assert (q + [x])[1..] == q[1..] + [x];
      LiveSnoc(q[1..], x);
    }
  }

  // ----- counting

  function ToSet(q: seq<nat>): set<nat> {
    set x | x in q
  }

  lemma {:induction false} DistinctCount(q: seq<nat>)
    requires forall a, b :: 0 <= a < b < |q| ==> q[a] != q[b]
    ensures |ToSet(q)| == |q|
  {
    if q != [] {
      var n := |q| - 1;
      DistinctCount(q[..n]);
      assert ToSet(q) == ToSet(q[..n]) + {q[n]};
      assert q[n] !in ToSet(q[..n]);
    }
  }

  lemma CardinalityBound(a: set<nat>, b: set<nat>)
    requires a <= b
    ensures |a| <= |b|
  {
    assert b == a + (b - a);
  }

  /** A table with fewer ids than slots has an empty slot, so every probe ends. */
  lemma RoomByCount(s: Slots, ids: set<nat>)
    requires Distinct(s) && (forall x: nat :: Holds(s, x) ==> x in ids) && |ids| < SLOTS
    ensures HasRoom(s)
  {
    if 0 !in s {
      forall a, b | 0 <= a < b < |s| ensures s[a] != s[b] {
        assert s[a] in s;
      }
      DistinctCount(s);
      assert forall x :: x in ToSet(s) ==> Holds(s, x);
      CardinalityBound(ToSet(s), ids);
      assert false;
    }
  }
}
