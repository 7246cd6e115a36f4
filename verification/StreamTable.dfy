// http2/streams.v: the fixed open-addressing table from open stream ids to their state.
module StreamTables {
  import opened Bytes
  import P = Probing

  /** `entries` is the finite map the table stands for; the arrays are what the source stores. Contracts say
      `Valid() == true` because the verifier unfolds a bare `Valid()` wherever one is required or promised. */
  class StreamTable<T> {
    const ids: array<nat>
    const vals: array<Option<T>>
    var len: nat
    ghost var entries: map<nat, T>

    ghost function Layout(): P.Slots
      reads this, ids
      requires ids.Length == P.SLOTS
    {
      ids[..]
    }

    ghost predicate Valid()
      reads this, ids, vals
    {
      && ids.Length == P.SLOTS && vals.Length == P.SLOTS
      && P.Valid(Layout())
      && (forall x: nat :: P.Holds(Layout(), x) <==> x in entries)
      && (forall i: P.Slot :: vals[i] == if ids[i] == 0 then None else Lookup(entries, ids[i]))
      && len == |entries|
    }

    static ghost function Lookup(m: map<nat, T>, id: nat): Option<T> {
      if id in m then Some(m[id]) else None
    }

    constructor ()
      ensures Valid() == true && fresh(ids) && fresh(vals)
      ensures entries == map[] && Layout() == seq(P.SLOTS, _ => 0)
    {
      ids := new nat[P.SLOTS](_ => 0);
      vals := new Option<T>[P.SLOTS](_ => None);
      len := 0;
      entries := map[];
    }

    /** The slot of id, found by probing from its home, or -1. */
    method Find(id: nat) returns (r: int)
      requires Valid() == true
      ensures r == P.Find(Layout(), id)
      ensures r >= 0 <==> id in entries
      ensures r >= 0 ==> r < P.SLOTS && ids[r] == id
    {
      P.FindCorrect(Layout(), id);
      if id == 0 {
        return -1;
      }
      var i: P.Slot := P.Home(id);
      for n := 0 to P.SLOTS
        invariant P.FindFrom(Layout(), id, i, |Layout()| - n) == P.Find(Layout(), id)
      {
        var k := ids[i];
        if k == id {
          return i;
        }
        if k == 0 {
          return -1;
        }
        i := P.Next(i);
      }
      return -1;
    }

    method Get(id: nat) returns (r: Option<T>)
      requires Valid() == true
      ensures r == Lookup(entries, id)
    {
      var i := Find(id);
      if i < 0 {
        return None;
      }
      return vals[i];
    }

    method Has(id: nat) returns (r: bool)
      requires Valid() == true
      ensures r <==> id in entries
    {
      var i := Find(id);
      return i >= 0;
    }

    /** The slot an insertion of id ends at: its own, else the first empty one of its run, else -1. */
    method FindSlot(id: nat) returns (r: int)
      requires Valid() == true && id != 0
      ensures -1 <= r < P.SLOTS
      ensures r >= 0 ==> ids[r] == id || (ids[r] == 0 && P.Put(Layout(), id) == Layout()[r := id])
      ensures r < 0 || ids[r] == id ==> P.Put(Layout(), id) == Layout()
      ensures r < 0 || ids[r] == 0 ==> id !in entries
    {
      P.FindCorrect(Layout(), id);
      var i: P.Slot := P.Home(id);
      for n := 0 to P.SLOTS
        invariant P.PutFrom(Layout(), id, i, |Layout()| - n) == P.Put(Layout(), id)
        invariant P.FindFrom(Layout(), id, i, |Layout()| - n) == P.Find(Layout(), id)
      {
        var k := ids[i];
        if k == id || k == 0 {
          return i;
        }
        i := P.Next(i);
      }
      return -1;
    }

    /** Insert or replace; a full table drops a new id after one bounded probe. */
    method Put(id: nat, s: T)
      requires Valid() == true && id != 0
      modifies this, ids, vals
      ensures Valid() == true
      ensures entries == if id in old(entries) || P.HasRoom(old(Layout())) then old(entries)[id := s] else old(entries)
      ensures len == old(len) + if id !in old(entries) && P.HasRoom(old(Layout())) then 1 else 0
      ensures Layout() == P.Put(old(Layout()), id)
    {
      P.PutCorrect(Layout(), id);
      assert id in entries <==> P.Holds(Layout(), id);
      var i := FindSlot(id);
      if i >= 0 {
        assert ids[i] in Layout();
        if ids[i] == id {
          Replace(i, s);
        } else {
          Fill(i, id, s);
        }
      }
    }

    method Replace(i: P.Slot, s: T)
      requires Valid() == true && ids[i] != 0
      modifies this, vals
      ensures Valid() == true && Layout() == old(Layout()) && entries == old(entries)[old(ids[i]) := s]
    {
      vals[i] := Some(s);
      entries := entries[ids[i] := s];
    }

    method Fill(i: P.Slot, id: nat, s: T)
      requires Valid() == true && ids[i] == 0 && id != 0 && id !in entries
      requires P.Valid(Layout()[i := id])
      modifies this, ids, vals
      ensures Valid() == true && Layout() == old(Layout())[i := id] && entries == old(entries)[id := s]
    {
      P.InsertedIds(Layout(), i, id);
      ids[i] := id;
      vals[i] := Some(s);
      len := len + 1;
      entries := entries[id := s];
      assert Layout() == old(Layout())[i := id];
    }

    /** Delete id, shifting the rest of its run back into the hole it leaves. */
    method Remove(id: nat)
      requires Valid() == true && (id in entries ==> P.HasRoom(Layout()))
      modifies this, ids, vals
      ensures Valid() == true && entries == old(entries) - {id}
      ensures len == old(len) - if id in old(entries) then 1 else 0
      ensures Layout() == P.Remove(old(Layout()), id)
      ensures id !in old(entries) ==> Layout() == old(Layout())
    {
      hide Valid, P.Valid, P.ShiftReady, P.Shift, P.Remove, P.Holds, P.Find;
      var hole := Find(id);
      if hole < 0 {
        P.RemoveAbsent(Layout(), id);
        assert entries - {id} == entries;
        return;
      }
      RemoveReady(id, hole);
      ghost var free: P.Slot :| ids[free] == 0;
      hole := ShiftBack(hole, free);
      Clear(hole, id);
    }

    lemma RemoveReady(id: nat, hole: P.Slot)
      requires Valid() == true && id in entries && hole == P.Find(Layout(), id) && P.HasRoom(Layout())
      ensures exists free: P.Slot :: ids[free] == 0
      ensures vals.Length == P.SLOTS && len == |entries|
      ensures P.ShiftReady(Layout(), hole, hole) && Holding(hole, entries)
      ensures P.Remove(Layout(), id) == P.Shift(Layout(), hole, hole, |Layout()|)
      ensures P.Valid(P.Remove(Layout(), id))
      ensures forall x: nat :: P.Holds(P.Remove(Layout(), id), x) <==> x in entries && x != id
    {
      hide P.Valid, P.ShiftReady, P.Shift, P.Remove, P.Holds;
      P.RemoveReady(Layout(), id);
      P.RemoveCorrect(Layout(), id);
      ghost var free: P.Slot :| Layout()[free] == 0;
      assert ids[free] == 0;
    }

    /** The shifting loop: what is left to do is to empty the slot it returns. */
    method ShiftBack(start: P.Slot, ghost free: P.Slot) returns (hole: P.Slot)
      requires ids.Length == P.SLOTS && vals.Length == P.SLOTS
      requires P.ShiftReady(Layout(), start, start) && ids[free] == 0
      requires Holding(start, entries)
      modifies ids, vals
      ensures Layout()[hole := 0] == P.Shift(old(Layout()), start, start, |old(Layout())|)
      ensures Holding(hole, entries)
    {
      hide P.ShiftReady, P.Shift;
      hole := start;
      var j: P.Slot := hole;
      ghost var steps := |Layout()|;
      while true
        invariant P.ShiftReady(Layout(), hole, j) && ids[free] == 0 && P.Gap(j, free) <= steps
        invariant P.Shift(Layout(), hole, j, steps) == P.Shift(old(Layout()), start, start, |old(Layout())|)
        invariant Holding(hole, entries)
        decreases steps
      {
        ghost var slots, last := Layout(), j;
        P.ShiftUnfold(slots, hole, last, steps);
        j := P.Next(j);
        var k := ids[j];
        if k == 0 {
          break;
        }
        if P.Stays(hole, j, P.Home(k)) {
          P.ShiftSkip(slots, hole, last, free);
        } else {
          P.ShiftMove(slots, hole, last, free);
          ids[hole] := k;
          vals[hole] := vals[j];
          assert Layout() == slots[hole := k];
          hole := j;
        }
        steps := steps - 1;
      }
    }

    method Clear(hole: P.Slot, ghost id: nat)
      requires ids.Length == P.SLOTS && vals.Length == P.SLOTS
      requires P.Valid(Layout()[hole := 0]) && Holding(hole, entries) && id in entries && len == |entries|
      requires forall x: nat :: P.Holds(Layout()[hole := 0], x) <==> x in entries && x != id
      modifies this, ids, vals
      ensures Valid() == true && entries == old(entries) - {id} && len == old(len) - 1
      ensures Layout() == old(Layout())[hole := 0]
    {
      ids[hole] := 0;
      vals[hole] := None;
      len := len - 1;
      entries := entries - {id};
      assert Layout() == old(Layout())[hole := 0];
      forall i: P.Slot ensures vals[i] == if ids[i] == 0 then None else Lookup(entries, ids[i]) {
        assert ids[i] != 0 ==> P.Holds(Layout(), ids[i]);
      }
    }

    /** Outside the hole, each slot carries the state of the id it holds. */
    ghost predicate Holding(hole: P.Slot, m: map<nat, T>)
      reads this, ids, vals
      requires ids.Length == P.SLOTS && vals.Length == P.SLOTS
    {
      forall i: P.Slot :: i != hole ==> vals[i] == if ids[i] == 0 then None else Lookup(m, ids[i])
    }

    /** What a slot holds. */
    lemma SlotHolds(i: P.Slot)
      requires Valid() == true
      ensures ids[i] == Layout()[i] && P.Valid(Layout())
      ensures ids[i] != 0 ==> ids[i] in entries && vals[i] == Some(entries[ids[i]])
      ensures forall x: nat :: P.Holds(Layout(), x) <==> x in entries
    {
      assert ids[i] in Layout();
      assert ids[i] != 0 ==> P.Holds(Layout(), ids[i]);
    }

    lemma EmptyIds()
      requires Valid() == true && len == 0
      ensures P.Ids(Layout()) == []
    {
      forall i: P.Slot ensures ids[i] == 0 {
        assert !P.Holds(Layout(), ids[i]);
      }
      P.LiveNone(Layout());
    }

    /** Each live id once, in slot order. */
    method IdsInto() returns (r: seq<nat>)
      requires Valid() == true
      ensures r == P.Ids(Layout())
    {
      if len == 0 {
        EmptyIds();
        return [];
      }
      r := Collect(ids);
    }
  }

  /** The nonzero entries of the array, in order. */
  method Collect(ids: array<nat>) returns (r: seq<nat>)
    requires ids.Length == P.SLOTS
    ensures r == P.Ids(ids[..])
  {
    r := [];
    for i := 0 to P.SLOTS
      invariant r == P.Live(ids[..i])
    {
      P.LiveSnoc(ids[..i], ids[i]);
      assert ids[..i + 1] == ids[..i] + [ids[i]];
      if ids[i] != 0 {
        r := r + [ids[i]];
      }
    }
    assert ids[..P.SLOTS] == ids[..];
  }
}
