// http2/conn.v: stream states and the free list that retired ones go to. A pointer to a state is a handle into
// the sequence of all states allocated so far, so two streams share a state exactly when their handles agree.
module StreamPool {
  import opened Bytes
  import opened HpackTable
  import opened ConnModel

  datatype StreamState = StreamState(
    headers: seq<Field>,
    body: seq<byte>,
    remoteDone: bool,
    rejected: bool,
    declaredLen: int,
    recvWindow: int,
    sendWindow: int,
    pending: seq<byte>,
    pendingOff: nat,
    pendingEnd: bool,
    trailers: seq<byte>,
    trailersPending: bool)

  type Handle = nat

  /** A state of an open stream stands for v; what is before `pendingOff` has been sent. */
  ghost predicate Is(s: StreamState, v: Stream) {
    && s.pendingOff <= |s.pending|
    && v == Stream(s.headers, s.body, s.remoteDone, s.rejected, s.declaredLen, s.recvWindow, s.sendWindow,
                   s.pending[s.pendingOff..], s.pendingEnd, s.trailers, s.trailersPending)
  }

  function EmptyState(): StreamState {
    StreamState([], [], false, false, -1, 0, 0, [], 0, false, [], false)
  }

  /** `release_stream` drops what a state held. */
  function Retired(s: StreamState): StreamState {
    s.(headers := [], body := [], pending := [], trailers := [])
  }

  /** `new_stream` resets every field of the state it hands out. */
  function Reset(s: StreamState, window: int): (r: StreamState)
    ensures Is(r, FreshStream(window))
  {
    s.(remoteDone := false, rejected := false, declaredLen := -1, recvWindow := Frames.DEFAULT_WINDOW_SIZE,
       sendWindow := window, pendingOff := 0, pendingEnd := false, trailersPending := false,
       headers := [], body := [], pending := [], trailers := [])
  }

  /** Where a state is: under the id of an open stream, or in the free list. */
  datatype Place = Live(id: nat) | Pooled(i: nat)

  /** Every state is at its place: no two open ids share one, and none of theirs is in the free list. */
  ghost predicate Placed(entries: map<nat, Handle>, free: seq<Handle>, place: seq<Place>) {
    && (forall id :: id in entries ==> entries[id] < |place| && place[entries[id]] == Live(id))
    && (forall i :: 0 <= i < |free| ==> free[i] < |place| && place[free[i]] == Pooled(i))
    && (forall h :: 0 <= h < |place| ==>
          match place[h]
          case Live(id) => id in entries && entries[id] == h
          case Pooled(i) => i < |free| && free[i] == h)
  }

  /** Each open id's state stands for the stream that `values` gives for the id. */
  ghost predicate Carries(entries: map<nat, Handle>, states: seq<StreamState>, values: map<nat, Stream>) {
    && values.Keys == entries.Keys
    && (forall id :: id in entries ==> entries[id] < |states| && Is(states[entries[id]], values[id]))
  }

  /** The pool: each state in one place, and those of open streams up to date. */
  ghost predicate Kept(entries: map<nat, Handle>, free: seq<Handle>, place: seq<Place>, states: seq<StreamState>,
                       values: map<nat, Stream>)
  {
    && |place| == |states|
    && Placed(entries, free, place) && Carries(entries, states, values)
  }

  lemma PlacedReused(entries: map<nat, Handle>, free: seq<Handle>, place: seq<Place>, id: nat)
    requires Placed(entries, free, place) && |free| > 0 && id !in entries
    ensures var h := free[|free| - 1];
            && h < |place| && (forall x :: x in entries ==> entries[x] != h)
            && Placed(entries[id := h], free[..|free| - 1], place[h := Live(id)])
  {
  }

  lemma PlacedRetired(entries: map<nat, Handle>, free: seq<Handle>, place: seq<Place>, id: nat)
    requires Placed(entries, free, place) && id in entries
    ensures var h := entries[id];
            && h < |place| && (forall x :: x in entries && x != id ==> entries[x] != h)
            && Placed(entries - {id}, free + [h], place[h := Pooled(|free|)])
  {
  }

  lemma PlacedNew(entries: map<nat, Handle>, place: seq<Place>, id: nat)
    requires Placed(entries, [], place) && id !in entries
    ensures Placed(entries[id := |place|], [], place + [Live(id)])
  {
  }

  lemma CarriesPut(entries: map<nat, Handle>, states: seq<StreamState>, values: map<nat, Stream>,
                   id: nat, h: Handle, s: StreamState, v: Stream)
    requires Carries(entries, states, values) && h < |states| && Is(s, v)
    requires forall x :: x in entries && x != id ==> entries[x] != h
    ensures Carries(entries[id := h], states[h := s], values[id := v])
  {
    hide Is;
  }

  lemma CarriesNew(entries: map<nat, Handle>, states: seq<StreamState>, values: map<nat, Stream>,
                   id: nat, s: StreamState, v: Stream)
    requires Carries(entries, states, values) && Is(s, v)
    ensures Carries(entries[id := |states|], states + [s], values[id := v])
  {
    hide Is;
  }

  lemma CarriesDrop(entries: map<nat, Handle>, states: seq<StreamState>, values: map<nat, Stream>,
                    id: nat, h: Handle, s: StreamState)
    requires Carries(entries, states, values) && h < |states|
    requires forall x :: x in entries && x != id ==> entries[x] != h
    ensures Carries(entries - {id}, states[h := s], values - {id})
  {
    hide Is;
  }

  lemma TakePooled(entries: map<nat, Handle>, free: seq<Handle>, place: seq<Place>, states: seq<StreamState>,
                   values: map<nat, Stream>, id: nat, s: StreamState, v: Stream)
    requires Kept(entries, free, place, states, values) && |free| > 0 && id !in entries && Is(s, v)
    ensures var h := free[|free| - 1];
            && h < |states|
            && Kept(entries[id := h], free[..|free| - 1], place[h := Live(id)], states[h := s], values[id := v])
  {
    hide Placed, Carries, Is;
    PlacedReused(entries, free, place, id);
    CarriesPut(entries, states, values, id, free[|free| - 1], s, v);
  }

  lemma TakeNew(entries: map<nat, Handle>, place: seq<Place>, states: seq<StreamState>,
                values: map<nat, Stream>, id: nat, s: StreamState, v: Stream)
    requires Kept(entries, [], place, states, values) && id !in entries && Is(s, v)
    ensures Kept(entries[id := |states|], [], place + [Live(id)], states + [s], values[id := v])
  {
    hide Placed, Carries, Is;
    PlacedNew(entries, place, id);
    CarriesNew(entries, states, values, id, s, v);
  }

  lemma Give(entries: map<nat, Handle>, free: seq<Handle>, place: seq<Place>, states: seq<StreamState>,
             values: map<nat, Stream>, id: nat, h: Handle, s: StreamState)
    requires Kept(entries, free, place, states, values) && id in entries && h == entries[id]
    ensures h < |states|
    ensures Kept(entries - {id}, free + [h], place[h := Pooled(|free|)], states[h := s], values - {id})
  {
    hide Placed, Carries, Is;
    PlacedRetired(entries, free, place, id);
    CarriesDrop(entries, states, values, id, h, s);
  }

  lemma Change(entries: map<nat, Handle>, free: seq<Handle>, place: seq<Place>, states: seq<StreamState>,
               values: map<nat, Stream>, id: nat, h: Handle, s: StreamState, v: Stream)
    requires Kept(entries, free, place, states, values) && id in entries && h == entries[id] && Is(s, v)
    ensures h < |states| && Kept(entries, free, place, states[h := s], values[id := v])
  {
    hide Placed, Carries, Is;
    PlacedRetired(entries, free, place, id);
    CarriesPut(entries, states, values, id, h, s, v);
    assert entries[id := h] == entries;
  }
}
