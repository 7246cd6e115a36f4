// http2/conn.v: the connection as the source holds it, each method proved against its function in ConnModel.dfy.
// Methods that append to the caller's buffers return what they append: octets to `out`, requests to `reqs`.
module ServerConns {
  import opened Bytes
  import opened Frames
  import opened HpackTable
  import opened ConnModel
  import opened ConnLog
  import opened ConnShapes
  import opened ConnInv
  import opened HeaderFrames
  import opened HpackDecoders
  import opened StreamTables
  import opened StreamPool
  import HpackBlock
  import ConnRuns
  import Segmentation
  import P = Probing
  import Rules = RequestRules

  class ServerConn {
    const dec: HpackDecoder
    const streams: StreamTable<Handle>
    var prefaceSeen: bool
    var lastStream: u31
    var states: seq<StreamState>
    var freeStreams: seq<Handle>
    var hdr: Assembly
    var peerMaxFrame: FrameSize
    var initSendWindow: int
    var connSendWindow: int
    var connRecvWindow: int

    /** Where each state is, the open streams as values, and everything that happened on the connection. */
    ghost var place: seq<Place>
    ghost var values: map<nat, Stream>
    ghost var log: Log

    ghost predicate Wf()
      reads this, dec, streams, streams.ids, streams.vals
    {
      && dec.Valid() && streams.ids.Length == P.SLOTS && streams.Valid()
      && streams.len <= MAX_CONCURRENT_STREAMS && |states| == streams.len + |freeStreams|
      && Kept(streams.entries, freeStreams, place, states, values)
    }

    /** The connection as a value. */
    ghost function Now(): World
      reads this, dec, streams, streams.ids
      requires streams.ids.Length == P.SLOTS
    {
      World(Conn(dec.State(), prefaceSeen, lastStream, streams.Layout(), values, |freeStreams|, hdr,
                 peerMaxFrame, initSendWindow, connSendWindow, connRecvWindow), log)
    }

    constructor ()
      ensures Wf() == true && Now() == NewWorld()
      ensures fresh(dec) && fresh(streams) && fresh(streams.ids) && fresh(streams.vals)
    {
      dec := new HpackDecoder(HPACK_DEFAULT_TABLE_SIZE);
      streams := new StreamTable<Handle>();
      prefaceSeen, lastStream, states, freeStreams := false, 0, [], [];
      hdr := Assembly(false, 0, false, false, false, false, []);
      peerMaxFrame, initSendWindow := DEFAULT_MAX_FRAME_SIZE, DEFAULT_WINDOW_SIZE;
      connSendWindow, connRecvWindow := DEFAULT_WINDOW_SIZE, DEFAULT_WINDOW_SIZE;
      place, values, log := [], map[], Nothing;
    }

    /** At most 128 of the 256 slots are in use, so the table never fills. */
    lemma Room()
      requires Wf() == true
      ensures P.HasRoom(streams.Layout())
    {
      hide Kept;
      P.RoomByCount(streams.Layout(), streams.entries.Keys);
    }

    lemma Opens(id: nat)
      requires Wf() == true
      ensures id in streams.entries <==> id in values
      ensures id in values ==> streams.entries[id] < |states| && Is(states[streams.entries[id]], values[id])
      ensures |values| == streams.len
    {
      hide Is, Placed;
      assert |values.Keys| == |streams.entries.Keys|;
    }

    /** The state of an open stream. */
    method Get(id: nat) returns (r: Option<Handle>)
      requires Wf() == true
      ensures r.Some? <==> id in values
      ensures id in streams.entries <==> id in values
      ensures r.Some? ==> Has(id, r.value)
    {
      Opens(id);
      hide StreamTable.Valid, Kept, Is;
      r := streams.Get(id);
    }

    method DropState(ghost id: nat, h: Handle)
      requires Kept(streams.entries, freeStreams, place, states, values)
      requires id in streams.entries && streams.entries[id] == h
      modifies this`freeStreams, this`states, this`place, this`values
      ensures Kept(streams.entries - {id}, freeStreams, place, states, values) && |states| == |old(states)|
      ensures values == old(values) - {id} && |freeStreams| == |old(freeStreams)| + 1
    {
      Give(streams.entries, freeStreams, place, states, values, id, h, Retired(states[h]));
      hide Kept;
      states := states[h := Retired(states[h])];
      place := place[h := Pooled(|freeStreams|)];
      freeStreams := freeStreams + [h];
      values := values - {id};
    }

    /** `release_stream` */
    method ReleaseStream(id: nat)
      requires Wf() == true
      modifies this, streams, streams.ids, streams.vals
      ensures Wf() == true && Now() == Release(old(Now()), id)
      ensures Wire(log) == old(Wire(log)) && Requests(log) == old(Requests(log))
    {
      hide StreamTable.Valid, StreamTable.Layout, P.Remove, P.HasRoom, Kept, HpackDecoder.Valid, HpackDecoder.State;
      Room();
      var h := Get(id);
      if h.Some? {
        DropState(id, h.value);
        log := Then(log, Released(id));
      } else {
        assert streams.entries - {id} == streams.entries;
      }
      streams.Remove(id);
    }

    /** Assign fields of the state of an open stream. */
    method Store(ghost id: nat, h: Handle, s: StreamState, ghost v: Stream)
      requires Wf() == true && Has(id, h) && Is(s, v)
      modifies this`states, this`values
      ensures Wf() == true && Has(id, h) && states == old(states)[h := s] && Now() == Update(old(Now()), id, v)
    {
      hide StreamTable.Valid, StreamTable.Layout, Kept, HpackDecoder.Valid, HpackDecoder.State;
      Change(streams.entries, freeStreams, place, states, values, id, h, s, v);
      states := states[h := s];
      values := values[id := v];
    }

    /** h is the state of the open stream id. */
    ghost predicate Has(id: nat, h: Handle)
      reads this, streams
    {
      && id in streams.entries && streams.entries[id] == h && h < |states|
      && id in values && Is(states[h], values[id])
    }

    /** The state put under a new id: the last one retired, or, only when none is left, a new one. */
    method Take(ghost id: nat) returns (h: Handle)
      requires Kept(streams.entries, freeStreams, place, states, values) && id !in streams.entries
      modifies this`freeStreams, this`states, this`place, this`values
      ensures Kept(streams.entries[id := h], freeStreams, place, states, values) && h < |states|
      ensures values == old(values)[id := FreshStream(initSendWindow)]
      ensures if old(freeStreams) == [] then freeStreams == [] && |states| == |old(states)| + 1
              else |freeStreams| == |old(freeStreams)| - 1 && |states| == |old(states)|
      ensures Is(states[h], FreshStream(initSendWindow))
    {
      ghost var v := FreshStream(initSendWindow);
      if |freeStreams| > 0 {
        h := freeStreams[|freeStreams| - 1];
        TakePooled(streams.entries, freeStreams, place, states, values, id, Reset(states[h], initSendWindow), v);
        hide Kept;
        freeStreams := freeStreams[..|freeStreams| - 1];
        states := states[h := Reset(states[h], initSendWindow)];
        place := place[h := Live(id)];
      } else {
        h := |states|;
        TakeNew(streams.entries, place, states, values, id, Reset(EmptyState(), initSendWindow), v);
        hide Kept;
        states := states + [Reset(EmptyState(), initSendWindow)];
        place := place + [Live(id)];
      }
      values := values[id := v];
    }

    /** `new_stream` */
    method NewStream(id: nat) returns (h: Handle)
      requires Wf() == true && id != 0 && id !in values && |values| < MAX_CONCURRENT_STREAMS
      modifies this, streams, streams.ids, streams.vals
      ensures Wf() == true && Has(id, h) && Now() == Open(old(Now()), id, FreshStream(initSendWindow))
      ensures Wire(log) == old(Wire(log)) && Requests(log) == old(Requests(log))
    {
      hide StreamTable.Valid, StreamTable.Layout, P.Put, P.HasRoom, Kept, HpackDecoder.Valid, HpackDecoder.State, Is;
      Opens(id);
      Room();
      h := Take(id);
      log := Then(log, Opened(id));
      streams.Put(id, h);
    }

    // ----- responses

    /** `write_response_headers` */
    method WriteResponseHeaders(id: nat, block: seq<byte>, end: bool) returns (out: seq<byte>)
      requires Wf() == true
      modifies this, streams, streams.ids, streams.vals
      ensures Wf() == true && Now() == WriteBlock(old(Now()), id, block, end)
      ensures Wire(log) == old(Wire(log)) + out && Requests(log) == old(Requests(log))
    {
      hide StreamTable.Valid, StreamTable.Layout, Kept, HpackDecoder.Valid, HpackDecoder.State, BlockFrames, SendAll,
           Wire, Requests, EncodeAll, Release;
      out := BlockBytes(id, block, end, peerMaxFrame);
      ghost var fs := BlockFrames(id, block, end, peerMaxFrame);
      SendAllLog(Now(), fs);
      log := SendAll(Now(), fs).log;
      if end {
        ReleaseStream(id);
      }
    }

    /** One DATA frame of an open stream, its state updated to s. */
    method SendChunk(id: nat, h: Handle, s: StreamState, ghost v: Stream, data: seq<byte>, last: bool)
      returns (out: seq<byte>)
      requires Wf() == true && Has(id, h) && Is(s, v)
      modifies this`states, this`values, this`connSendWindow, this`log
      ensures Wf() == true && Has(id, h) && states == old(states)[h := s]
      ensures Now() == Sending(old(Now()), id, v, data, last)
      ensures Wire(log) == old(Wire(log)) + out && Requests(log) == old(Requests(log))
    {
      hide StreamTable.Valid, StreamTable.Layout, Kept, HpackDecoder.Valid, HpackDecoder.State, Is, Encode;
      out := WriteData(id, data, last);
      Store(id, h, s, v);
      connSendWindow := connSendWindow - |data|;
      log := Then(log, Sent(DataFrame(id, data, last)));
    }

    /** How much of len octets both windows and the peer's frame size let through; 0 or less: parked. */
    method NextChunk(sendWindow: int, len: nat) returns (chunk: int)
      requires len > 0
      ensures chunk == Min(Min(len, Min(connSendWindow, sendWindow)), peerMaxFrame)
    {
      var allow := connSendWindow;
      if sendWindow < allow {
        allow := sendWindow;
      }
      chunk := len;
      if chunk > allow {
        chunk := allow;
      }
      if chunk > peerMaxFrame {
        chunk := peerMaxFrame;
      }
    }

    /** One turn of the loop of `write_response_body`; n == 0 when nothing may go out. */
    method EmitChunk(id: nat, h: Handle, data: seq<byte>, end: bool) returns (n: nat, out: seq<byte>)
      requires Wf() == true && Has(id, h) && data != []
      modifies this`states, this`values, this`connSendWindow, this`log
      ensures Wf() == true && Has(id, h) && n <= |data|
      ensures n == 0 ==> EmitData(old(Now()), id, data, end) == Emitted(Now(), data)
      ensures n > 0 ==> EmitData(old(Now()), id, data, end) == EmitData(Now(), id, data[n..], end)
      ensures Wire(log) == old(Wire(log)) + out && Requests(log) == old(Requests(log))
    {
      hide StreamTable.Valid, StreamTable.Layout, Kept, HpackDecoder.Valid, HpackDecoder.State, EmitData, Wire,
           Requests, WriteData;
      EmitUnfold(Now(), id, data, end);
      var s := states[h];
      var chunk := NextChunk(s.sendWindow, |data|);
      if chunk <= 0 {
        return 0, [];
      }
      n := chunk;
      ghost var v := values[id];
      out := SendChunk(id, h, s.(sendWindow := s.sendWindow - n), v.(sendWindow := v.sendWindow - n),
                       data[..n], n == |data| && end);
    }

    /** The loop of `write_response_body`: how far the body went out. */
    method EmitBody(id: nat, h: Handle, body: seq<byte>, end: bool) returns (off: nat, out: seq<byte>)
      requires Wf() == true && Has(id, h)
      modifies this`states, this`values, this`connSendWindow, this`log
      ensures Wf() == true && Has(id, h) && off <= |body|
      ensures EmitData(old(Now()), id, body, end) == Emitted(Now(), body[off..])
      ensures Wire(log) == old(Wire(log)) + out && Requests(log) == old(Requests(log))
    {
      hide StreamTable.Valid, StreamTable.Layout, Kept, HpackDecoder.Valid, HpackDecoder.State, EmitData, Wire,
           Requests;
      off, out := 0, [];
      assert body[0..] == body;
      while off < |body|
        invariant Wf() == true && Has(id, h) && off <= |body|
        invariant EmitData(Now(), id, body[off..], end) == EmitData(old(Now()), id, body, end)
        invariant Wire(log) == old(Wire(log)) + out && Requests(log) == old(Requests(log))
      {
        var n, d := EmitChunk(id, h, body[off..], end);
        out := out + d;
        if n == 0 {
          return;
        }
        assert body[off..][n..] == body[off + n..];
        off := off + n;
      }
      EmitUnfold(Now(), id, body[off..], end);
    }

    /** `write_response_body` */
    method WriteResponseBody(id: nat, body: seq<byte>, end: bool) returns (out: seq<byte>)
      requires Wf() == true
      modifies this, streams, streams.ids, streams.vals
      ensures Wf() == true && Now() == WriteBody(old(Now()), id, body, end)
      ensures Wire(log) == old(Wire(log)) + out && Requests(log) == old(Requests(log))
    {
      hide StreamTable.Valid, StreamTable.Layout, Kept, HpackDecoder.Valid, HpackDecoder.State, EmitData, Release,
           Encode;
      var g := Get(id);
      out := [];
      if g.None? {
        return;
      }
      log := Then(log, WroteBody(id, body, end));
      if |body| == 0 {
        if end {
          out := WriteData(id, [], true);
          log := Then(log, Sent(DataFrame(id, [], true)));
          ReleaseStream(id);
        }
        return;
      }
      EmitKeepsOpen(Now(), id, body, end);
      out := WriteRest(id, g.value, body, end);
    }

    method WriteRest(id: nat, h: Handle, body: seq<byte>, end: bool) returns (out: seq<byte>)
      requires Wf() == true && Has(id, h)
      modifies this, streams, streams.ids, streams.vals
      ensures Wf() == true && Now() == Parking(EmitData(old(Now()), id, body, end), id, end)
      ensures Wire(log) == old(Wire(log)) + out && Requests(log) == old(Requests(log))
    {
      hide StreamTable.Valid, StreamTable.Layout, Kept, HpackDecoder.Valid, HpackDecoder.State, EmitData, Release, Wire,
           Requests;
      var off;
      off, out := EmitBody(id, h, body, end);
      if off < |body| {
        var s := states[h];
        ghost var v := values[id];
        PendingGrows(s, v, body[off..], end);
        Store(id, h, s.(pending := s.pending + body[off..], pendingEnd := end),
              v.(parked := v.parked + body[off..], parkedEnd := end));
      } else if end {
        ReleaseStream(id);
      }
    }

    /** `write_response_trailers` */
    method WriteResponseTrailers(id: nat, block: seq<byte>) returns (out: seq<byte>)
      requires Wf() == true
      modifies this, streams, streams.ids, streams.vals
      ensures Wf() == true && Now() == WriteTrailers(old(Now()), id, block)
      ensures Wire(log) == old(Wire(log)) + out && Requests(log) == old(Requests(log))
    {
      hide StreamTable.Valid, StreamTable.Layout, Kept, HpackDecoder.Valid, HpackDecoder.State, WriteBlock;
      var g := Get(id);
      out := [];
      if g.None? {
        return;
      }
      log := Then(log, WroteTrailers(id));
      var s := states[g.value];
      if s.pendingOff < |s.pending| {
        Store(id, g.value, s.(trailers := block, trailersPending := true),
              values[id].(trailers := block, trailersPending := true));
        return;
      }
      out := WriteResponseHeaders(id, block, true);
    }

    /** `abort_stream` */
    method AbortStream(id: nat, code: ErrorCode) returns (out: seq<byte>)
      requires Wf() == true
      modifies this, streams, streams.ids, streams.vals
      ensures Wf() == true && Now() == Release(Send(old(Now()), RstFrame(id, code)), id)
      ensures Wire(log) == old(Wire(log)) + out && Requests(log) == old(Requests(log))
    {
      hide StreamTable.Valid, StreamTable.Layout, Kept, HpackDecoder.Valid, HpackDecoder.State, Release, Encode;
      out := WriteRstStream(id, code);
      log := Then(log, Sent(RstFrame(id, code)));
      ReleaseStream(id);
    }

    /** One turn of the loop of `flush_pending`; n == 0 when nothing may go out. */
    method FlushChunk(id: nat, h: Handle) returns (n: nat, out: seq<byte>)
      requires Wf() == true && Has(id, h) && states[h].pendingOff < |states[h].pending|
      modifies this`states, this`values, this`connSendWindow, this`log
      ensures Wf() == true && Has(id, h) && states[h].pending == old(states[h].pending)
      ensures states[h].pendingOff == old(states[h].pendingOff) + n
      ensures Drain(old(Now()), id) == if n == 0 then Now() else Drain(Now(), id)
      ensures Wire(log) == old(Wire(log)) + out && Requests(log) == old(Requests(log))
    {
      hide StreamTable.Valid, StreamTable.Layout, Kept, HpackDecoder.Valid, HpackDecoder.State, Drain, Wire, Requests,
           WriteData, Sending;
      var s := states[h];
      var data := s.pending[s.pendingOff..];
      DrainStep(Now(), id);
      var chunk := NextChunk(s.sendWindow, |data|);
      if chunk <= 0 {
        return 0, [];
      }
      n := chunk;
      assert data[n..] == s.pending[s.pendingOff + n..];
      ghost var v := values[id];
      out := SendChunk(id, h, s.(sendWindow := s.sendWindow - n, pendingOff := s.pendingOff + n),
                       v.(sendWindow := v.sendWindow - n, parked := data[n..]), data[..n], n == |data| && s.pendingEnd);
    }

    /** The loop of `flush_pending`. */
    method DrainPending(id: nat, h: Handle) returns (out: seq<byte>)
      requires Wf() == true && Has(id, h)
      modifies this`states, this`values, this`connSendWindow, this`log
      ensures Wf() == true && Has(id, h) && Now() == Drain(old(Now()), id)
      ensures Wire(log) == old(Wire(log)) + out && Requests(log) == old(Requests(log))
    {
      hide StreamTable.Valid, StreamTable.Layout, Kept, HpackDecoder.Valid, HpackDecoder.State, Drain, Wire, Requests;
      out := [];
      while states[h].pendingOff < |states[h].pending|
        invariant Wf() == true && Has(id, h)
        invariant Drain(Now(), id) == Drain(old(Now()), id)
        invariant Wire(log) == old(Wire(log)) + out && Requests(log) == old(Requests(log))
        decreases |states[h].pending| - states[h].pendingOff
      {
        var n, d := FlushChunk(id, h);
        out := out + d;
        if n == 0 {
          return;
        }
      }
      DrainNothing(Now(), id);
    }

    /** `flush_pending` */
    method FlushPending(id: nat) returns (out: seq<byte>)
      requires Wf() == true
      modifies this, streams, streams.ids, streams.vals
      ensures Wf() == true && Now() == Flush(old(Now()), id)
      ensures Wire(log) == old(Wire(log)) + out && Requests(log) == old(Requests(log))
    {
      hide StreamTable.Valid, StreamTable.Layout, Kept, HpackDecoder.Valid, HpackDecoder.State, Drain, Wire, Requests,
           Flush, WriteBlock, Release;
      FlushUnfold(Now(), id);
      out := [];
      var g := Get(id);
      if g.None? {
        return;
      }
      out := DrainPending(id, g.value);
      var s := states[g.value];
      if s.pendingOff == |s.pending| {
        if s.pendingEnd {
          ReleaseStream(id);
        } else if s.trailersPending {
          Store(id, g.value, s.(trailersPending := false), values[id].(trailersPending := false));
          var d := WriteResponseHeaders(id, s.trailers, true);
          out := out + d;
        }
      }
    }

    /** The walk over the open streams once a window grew. */
    method FlushEach() returns (out: seq<byte>)
      requires Wf() == true
      modifies this, streams, streams.ids, streams.vals
      ensures Wf() == true && Now() == FlushAll(old(Now()), P.Ids(old(Now()).c.slots))
      ensures Wire(log) == old(Wire(log)) + out && Requests(log) == old(Requests(log))
    {
      hide StreamTable.Valid, StreamTable.Layout, Kept, HpackDecoder.Valid, HpackDecoder.State, Wire, Requests, Flush,
           P.Ids;
      var ids := streams.IdsInto();
      out := [];
      assert ids[0..] == ids;
      for i := 0 to |ids|
        invariant Wf() == true && FlushAll(Now(), ids[i..]) == FlushAll(old(Now()), ids)
        invariant Wire(log) == old(Wire(log)) + out && Requests(log) == old(Requests(log))
      {
        assert ids[i..][1..] == ids[i + 1..];
        var d := FlushPending(ids[i]);
        out := out + d;
      }
    }

    // ----- frames

    /** A changed initial window moves the send window of every open stream. */
    method AdjustAll(delta: int)
      requires Wf() == true
      modifies this`states, this`values
      ensures Wf() == true && Now() == WithStreams(old(Now()), AdjustWindows(old(values), delta))
    {
      hide StreamTable.Valid, StreamTable.Layout, Kept, HpackDecoder.Valid, HpackDecoder.State, AdjustWindows, Partly,
           Listed;
      AllListed();
      PartlyEnds(values, streams.Layout(), delta);
      for i := 0 to P.SLOTS
        invariant Wf() == true && Now() == WithStreams(old(Now()), Partly(old(values), streams.Layout(), i, delta))
      {
        AdjustSlot(i, delta, old(values));
      }
    }

    method AdjustSlot(i: P.Slot, delta: int, ghost was: map<nat, Stream>)
      requires Wf() == true && Listed(was, streams.Layout()) == true
      requires values == Partly(was, streams.Layout(), i, delta)
      modifies this`states, this`values
      ensures Wf() == true && Now() == WithStreams(old(Now()), Partly(was, streams.Layout(), i + 1, delta))
    {
      hide StreamTable.Valid, StreamTable.Layout, Kept, HpackDecoder.Valid, HpackDecoder.State, Partly, Listed;
      SlotState(i);
      PartlyKeys(was, streams.Layout(), i, delta);
      PartlyStep(was, streams.Layout(), i, delta);
      var id := streams.ids[i];
      if id != 0 {
        var h := streams.vals[i].value;
        Store(id, h, states[h].(sendWindow := states[h].sendWindow + delta),
              values[id].(sendWindow := values[id].sendWindow + delta));
      }
    }

    lemma AllListed()
      requires Wf() == true
      ensures Listed(values, streams.Layout())
    {
      hide Placed, Is;
      streams.SlotHolds(0);
    }

    lemma SlotState(i: P.Slot)
      requires Wf() == true
      ensures streams.ids[i] == streams.Layout()[i] && i < streams.vals.Length
      ensures if streams.ids[i] == 0 then 0 !in values
              else streams.vals[i].Some? && Has(streams.ids[i], streams.vals[i].value)
    {
      streams.SlotHolds(i);
      Opens(streams.ids[i]);
      assert !P.Holds(streams.Layout(), 0);
      hide Kept, Is;
    }

    /** A handler did what r says. After an error only the octets and the code matter: the connection closes. */
    ghost predicate Meets(r: Result, code: ErrorCode)
      reads this, dec, streams, streams.ids
      requires streams.ids.Length == P.SLOTS
    {
      code == r.code && log == r.w.log && lastStream == r.w.c.lastStream && (code == NoError ==> Now() == r.w)
    }

    method ApplySetting(st: Setting, changed0: bool) returns (code: ErrorCode, changed: bool)
      requires Wf() == true
      modifies this
      ensures Wf() == true && log == old(log) && lastStream == old(lastStream)
      ensures Applied(Now().c, code, changed) == AppliedOne(old(Now()).c, st, changed0)
    {
      hide StreamTable.Valid, StreamTable.Layout, Kept, HpackDecoder.Valid, HpackDecoder.State, AdjustWindows;
      code, changed := NoError, changed0;
      if st.id == SETTING_INITIAL_WINDOW_SIZE {
        if st.val > MAX_WINDOW {
          return FlowControlError, changed;
        }
        var delta := st.val - initSendWindow;
        initSendWindow := st.val;
        AdjustAll(delta);
        changed := true;
      } else if st.id == SETTING_MAX_FRAME_SIZE {
        if st.val < DEFAULT_MAX_FRAME_SIZE || st.val > LARGEST_MAX_FRAME_SIZE {
          return ProtocolError, changed;
        }
        peerMaxFrame := st.val;
      } else if st.id == SETTING_ENABLE_PUSH {
        if st.val > 1 {
          return ProtocolError, changed;
        }
      }
    }

    method ApplyEach(settings: seq<Setting>) returns (code: ErrorCode, changed: bool)
      requires Wf() == true
      modifies this
      ensures Wf() == true && log == old(log) && lastStream == old(lastStream)
      ensures Applied(Now().c, code, changed) == ApplySettings(old(Now()).c, settings, false)
    {
      hide StreamTable.Valid, StreamTable.Layout, Kept, HpackDecoder.Valid, HpackDecoder.State, ApplySettings,
           AppliedOne;
      code, changed := NoError, false;
      assert settings[0..] == settings;
      for i := 0 to |settings|
        invariant Wf() == true && log == old(log) && lastStream == old(lastStream) && code == NoError
        invariant ApplySettings(Now().c, settings[i..], changed) == ApplySettings(old(Now()).c, settings, false)
      {
        ApplyUnfold(Now().c, settings[i..], changed);
        assert settings[i..][1..] == settings[i + 1..];
        code, changed := ApplySetting(settings[i], changed);
        if code != NoError {
          return;
        }
      }
      ApplyUnfold(Now().c, [], changed);
    }

    /** `on_settings` */
    method HandleSettings(f: Frame) returns (code: ErrorCode, out: seq<byte>)
      requires Wf() == true
      modifies this, streams, streams.ids, streams.vals
      ensures Wf() == true && Meets(OnSettings(old(Now()), f), code)
      ensures Wire(log) == old(Wire(log)) + out && Requests(log) == old(Requests(log))
    {
      hide StreamTable.Valid, StreamTable.Layout, Kept, HpackDecoder.Valid, HpackDecoder.State, ApplySettings, FlushAll,
           Encode, P.Ids, SettingsOf;
      out := [];
      if f.id != 0 {
        return ProtocolError, [];
      }
      if Bit0(f.flags) {
        if |f.payload| != 0 {
          return FrameSizeError, [];
        }
        return NoError, [];
      }
      var settings := ParseSettings(f.payload);
      if settings.None? {
        return FrameSizeError, [];
      }
      var changed;
      code, changed := ApplyEach(settings.value);
      if code != NoError {
        return;
      }
      out := WriteSettingsAck();
      log := Then(log, Sent(SettingsAckFrame()));
      if changed {
        var d := FlushEach();
        out := out + d;
      }
    }

    /** `complete_stream` */
    method CompleteStream(id: u31) returns (out: seq<byte>, reqs: seq<Request>)
      requires Wf() == true
      modifies this, streams, streams.ids, streams.vals
      ensures Wf() == true && Now() == Complete(old(Now()), id)
      ensures Wire(log) == old(Wire(log)) + out && Requests(log) == old(Requests(log)) + reqs
    {
      hide StreamTable.Valid, StreamTable.Layout, Kept, HpackDecoder.Valid, HpackDecoder.State, Release, Encode;
      out, reqs := [], [];
      var g := Get(id);
      if g.None? {
        return;
      }
      var s := states[g.value];
      ReleaseForgets(Now(), id, values[id].(remoteDone := true));
      ReleaseForgets(Send(Now(), RstFrame(id, ProtocolError)), id, values[id].(remoteDone := true));
      Store(id, g.value, s.(remoteDone := true), values[id].(remoteDone := true));
      if s.rejected {
        ReleaseStream(id);
        return;
      }
      if s.declaredLen >= 0 && s.declaredLen != |s.body| {
        out := WriteRstStream(id, ProtocolError);
        log := Then(log, Sent(RstFrame(id, ProtocolError)));
        ReleaseStream(id);
        return;
      }
      reqs := [Request(id, s.headers, s.body)];
      log := Then(log, Surfaced(Request(id, s.headers, s.body)));
    }

    /** Where the content of a padded payload starts and ends. */
    method Unpadded(flags: byte, payload: seq<byte>) returns (r: Option<(nat, nat)>)
      ensures r == Unpad(flags, payload)
    {
      var off, end := 0, |payload|;
      if Bit3(flags) {
        if |payload| < 1 {
          return None;
        }
        var pad := payload[0];
        off := 1;
        if off + pad > |payload| {
          return None;
        }
        end := |payload| - pad;
      }
      return Some((off, end));
    }

    method ChargeData(ghost id: nat, h: Handle, flow: nat)
      requires Wf() == true && Has(id, h)
      modifies this`states, this`values, this`connRecvWindow
      ensures Wf() == true && Has(id, h) && Now() == RecvCharged(old(Now()), id, flow)
      ensures connRecvWindow == old(connRecvWindow) - flow && states[h].recvWindow == old(states[h]).recvWindow - flow
    {
      hide StreamTable.Valid, StreamTable.Layout, Kept, HpackDecoder.Valid, HpackDecoder.State;
      var s := states[h];
      connRecvWindow := connRecvWindow - flow;
      Store(id, h, s.(recvWindow := s.recvWindow - flow), values[id].(recvWindow := values[id].recvWindow - flow));
    }

    /** The content of a DATA frame is kept, and the windows snap back: the stream's only if it stays open. */
    method KeepContent(f: Frame, h: Handle, content: seq<byte>, ghost w: World)
      requires Wf() == true && Has(f.id, h)
      requires f.id in w.c.streams && Now() == RecvCharged(w, f.id, |f.payload|)
      modifies this`states, this`values, this`connRecvWindow
      ensures Wf() == true && Now() == Update(w, f.id, WithContent(w.c.streams[f.id], f, content))
    {
      hide StreamTable.Valid, StreamTable.Layout, Kept, HpackDecoder.Valid, HpackDecoder.State, RecvCharged, Is,
           WithContent;
      var s := states[h];
      var body := if s.rejected then s.body else s.body + content;
      var recvWindow := if Bit0(f.flags) then s.recvWindow else s.recvWindow + |f.payload|;
      ghost var v := WithContent(w.c.streams[f.id], f, content);
      TakenStep(w, f.id, |f.payload|, v);
      ContentIs(s, w.c.streams[f.id], f, content);
      Store(f.id, h, s.(body := body, recvWindow := recvWindow), v);
      connRecvWindow := connRecvWindow + |f.payload|;
    }

    /** The WINDOW_UPDATEs that tell the peer so. */
    method Replenish(id: u31, flow: nat, fin: bool) returns (out: seq<byte>)
      requires Wf() == true
      modifies this`log
      ensures Wf() == true && Now() == Replenished(old(Now()), id, flow, fin)
      ensures Wire(log) == old(Wire(log)) + out && Requests(log) == old(Requests(log))
    {
      hide StreamTable.Valid, StreamTable.Layout, Kept, HpackDecoder.Valid, HpackDecoder.State, Encode;
      out := [];
      if flow > 0 {
        out := WriteWindowUpdate(0, flow);
        log := Then(log, Sent(WindowUpdateFrame(0, flow)));
        if !fin {
          out := out + WriteWindowUpdate(id, flow);
          log := Then(log, Sent(WindowUpdateFrame(id, flow)));
        }
      }
    }

    /** The end of `on_data`, once both windows are charged: keep the content, replenish, complete. */
    method TakeData(f: Frame, h: Handle, content: seq<byte>, ghost w: World)
      returns (out: seq<byte>, reqs: seq<Request>)
      requires Wf() == true && Has(f.id, h)
      requires f.id in w.c.streams && Now() == RecvCharged(w, f.id, |f.payload|)
      modifies this, streams, streams.ids, streams.vals
      ensures Wf() == true && Now() == Taken(w, f, content)
      ensures Wire(log) == old(Wire(log)) + out && Requests(log) == old(Requests(log)) + reqs
    {
      hide StreamTable.Valid, StreamTable.Layout, Kept, HpackDecoder.Valid, HpackDecoder.State, Complete, Wire,
           Requests, RecvCharged, WithContent, Replenished;
      KeepContent(f, h, content, w);
      out := Replenish(f.id, |f.payload|, Bit0(f.flags));
      reqs := [];
      if Bit0(f.flags) {
        var d;
        d, reqs := CompleteStream(f.id);
        out := out + d;
      }
    }

    /** `on_data` */
    method HandleData(f: Frame) returns (code: ErrorCode, out: seq<byte>, reqs: seq<Request>)
      requires Wf() == true
      modifies this, streams, streams.ids, streams.vals
      ensures Wf() == true && Meets(OnData(old(Now()), f), code)
      ensures Wire(log) == old(Wire(log)) + out && Requests(log) == old(Requests(log)) + reqs
    {
      hide StreamTable.Valid, StreamTable.Layout, Kept, HpackDecoder.Valid, HpackDecoder.State, Complete, Wire,
           Requests, Unpad, RecvCharged, Taken, OnData;
      OnDataCases(Now(), f);
      out, reqs := [], [];
      if f.id == 0 {
        return ProtocolError, [], [];
      }
      var g := Get(f.id);
      if g.None? {
        if f.id > lastStream {
          return ProtocolError, [], [];
        }
        return StreamClosed, [], [];
      }
      var s := states[g.value];
      if s.remoteDone {
        return StreamClosed, [], [];
      }
      ChargeData(f.id, g.value, |f.payload|);
      if connRecvWindow < 0 || states[g.value].recvWindow < 0 {
        return FlowControlError, [], [];
      }
      var r := Unpadded(f.flags, f.payload);
      if r.None? {
        return ProtocolError, [], [];
      }
      if !s.rejected && |s.body| + (r.value.1 - r.value.0) > MAX_BODY_BYTES {
        return EnhanceYourCalm, [], [];
      }
      out, reqs := TakeData(f, g.value, f.payload[r.value.0..r.value.1], old(Now()));
      return NoError, out, reqs;
    }

    /** A new stream for the assembled block, refilled from its fields and completed when the block ended it. */
    method OpenStream(fields: seq<Field>) returns (out: seq<byte>, reqs: seq<Request>)
      requires Wf() == true && hdr.id != 0 && hdr.id !in values && |values| < MAX_CONCURRENT_STREAMS
      modifies this, streams, streams.ids, streams.vals
      ensures Wf() == true && Now() == OpenedWith(old(Now()), fields)
      ensures Wire(log) == old(Wire(log)) + out && Requests(log) == old(Requests(log)) + reqs
    {
      hide StreamTable.Valid, StreamTable.Layout, Kept, HpackDecoder.Valid, HpackDecoder.State, Complete, Encode,
           Rules.ValidRequest, Rules.DeclaredLength, P.Put;
      out, reqs := [], [];
      var ok, declared := Rules.ValidateRequestFields(fields);
      var malformed := hdr.malformed || !ok;
      FillStream(hdr.id, fields, malformed, declared);
      if malformed {
        out := WriteRstStream(hdr.id, ProtocolError);
        log := Then(log, Sent(RstFrame(hdr.id, ProtocolError)));
      }
      if hdr.endStream {
        var d;
        d, reqs := CompleteStream(hdr.id);
        out := out + d;
      }
    }

    method FillStream(id: nat, fields: seq<Field>, malformed: bool, declared: int)
      requires Wf() == true && id != 0 && id !in values && |values| < MAX_CONCURRENT_STREAMS
      modifies this, streams, streams.ids, streams.vals
      ensures Wf() == true && Now() == Open(old(Now()), id, Filled(initSendWindow, fields, malformed, declared))
      ensures Wire(log) == old(Wire(log)) && Requests(log) == old(Requests(log))
    {
      hide StreamTable.Valid, StreamTable.Layout, Kept, HpackDecoder.Valid, HpackDecoder.State, P.Put;
      var h := NewStream(id);
      ghost var v := Filled(initSendWindow, fields, malformed, declared);
      assert old(values)[id := FreshStream(initSendWindow)][id := v] == old(values)[id := v];
      Store(id, h, states[h].(headers := fields, rejected := malformed, declaredLen := declared), v);
    }

    /** What the assembled block leads to once decoded. */
    method FinishFields(fields: seq<Field>) returns (out: seq<byte>, reqs: seq<Request>)
      requires Wf() == true && Announceable(Now().c)
      modifies this, streams, streams.ids, streams.vals
      ensures Wf() == true && Now() == Finished(old(Now()), fields)
      ensures Wire(log) == old(Wire(log)) + out && Requests(log) == old(Requests(log)) + reqs
    {
      hide StreamTable.Valid, StreamTable.Layout, Kept, HpackDecoder.Valid, HpackDecoder.State, Complete, Encode,
           Release, Rules.ValidTrailers, OpenedWith;
      out, reqs := [], [];
      if hdr.trailers {
        var ok := Rules.ValidTrailerFields(fields);
        if !ok {
          out := WriteRstStream(hdr.id, ProtocolError);
          log := Then(log, Sent(RstFrame(hdr.id, ProtocolError)));
          ReleaseStream(hdr.id);
          return;
        }
        out, reqs := CompleteStream(hdr.id);
        return;
      }
      if hdr.refused {
        out := WriteRstStream(hdr.id, RefusedStream);
        log := Then(log, Sent(RstFrame(hdr.id, RefusedStream)));
        return;
      }
      out, reqs := OpenStream(fields);
    }

    /** `finish_header_block` */
    method FinishHeaderBlock() returns (code: ErrorCode, out: seq<byte>, reqs: seq<Request>)
      requires Wf() == true && Announceable(Now().c)
      modifies this, dec, streams, streams.ids, streams.vals
      ensures Wf() == true && Meets(FinishBlock(old(Now())), code)
      ensures Wire(log) == old(Wire(log)) + out && Requests(log) == old(Requests(log)) + reqs
    {
      hide StreamTable.Valid, StreamTable.Layout, Kept, HpackDecoder.Valid, HpackDecoder.State, FinishBlock, Finished,
           Wire, Requests, HpackBlock.DecodeBlock;
      FinishCases(Now());
      hdr := hdr.(expecting := false);
      var ok, fields := dec.DecodeInto(hdr.block);
      if !ok {
        return CompressionError, [], [];
      }
      out, reqs := FinishFields(fields);
      code := NoError;
    }

    /** Where the field block of a HEADERS frame starts and ends, and whether the stream depends on itself. */
    method FieldBlock(f: Frame) returns (r: Option<(nat, nat)>, malformed: bool)
      ensures (r, malformed) == FragmentRange(f)
    {
      hide Unpad;
      var u := Unpadded(f.flags, f.payload);
      malformed := false;
      if u.None? {
        return None, false;
      }
      var off: nat, end := u.value.0, u.value.1;
      if Bit5(f.flags) {
        if off + 5 > end {
          return None, false;
        }
        var dep := ReadU32(f.payload, off) % 0x8000_0000;
        malformed := dep == f.id;
        off := off + 5;
      }
      return Some((off, end)), malformed;
    }

    /** The checks of `on_headers`, up to where the block is complete. */
    method BeginBlock(f: Frame) returns (code: ErrorCode)
      requires Wf() == true
      modifies this`hdr, this`lastStream
      ensures Wf() == true
      ensures match StartBlock(old(Now()).c, f)
              case Bad(c) => code == c && code != NoError && lastStream == old(lastStream)
              case Begin(h, last) =>
                code == NoError && Now() == old(Now()).(c := old(Now()).c.(hdr := h, lastStream := last))
    {
      hide StreamTable.Valid, StreamTable.Layout, Kept, HpackDecoder.Valid, HpackDecoder.State, FragmentRange,
           StartBlock;
      StartCases(Now().c, f);
      Opens(f.id);
      if f.id == 0 || f.id % 2 == 0 {
        return ProtocolError;
      }
      var range, malformed := FieldBlock(f);
      if range.None? {
        return ProtocolError;
      }
      var trailers, refused := false, false;
      var g := Get(f.id);
      if g.Some? {
        if states[g.value].remoteDone {
          return StreamClosed;
        }
        if !Bit0(f.flags) {
          return ProtocolError;
        }
        trailers := true;
      } else {
        if f.id <= lastStream {
          return ProtocolError;
        }
        lastStream := f.id;
        refused := streams.len >= MAX_CONCURRENT_STREAMS;
      }
      hdr := Assembly(true, f.id, Bit0(f.flags), refused, trailers, malformed, f.payload[range.value.0..range.value.1]);
      return NoError;
    }

    /** `on_headers` */
    method HandleHeaders(f: Frame) returns (code: ErrorCode, out: seq<byte>, reqs: seq<Request>)
      requires Wf() == true
      modifies this, dec, streams, streams.ids, streams.vals
      ensures Wf() == true && Meets(OnHeaders(old(Now()), f), code)
      ensures Wire(log) == old(Wire(log)) + out && Requests(log) == old(Requests(log)) + reqs
    {
      hide StreamTable.Valid, StreamTable.Layout, Kept, HpackDecoder.Valid, HpackDecoder.State, StartBlock,
           FinishBlock, Wire, Requests, Announceable;
      StartAnnounceable(Now().c, f);
      out, reqs := [], [];
      code := BeginBlock(f);
      if code == NoError && Bit2(f.flags) {
        code, out, reqs := FinishHeaderBlock();
      }
    }

    /** A CONTINUATION frame. */
    method HandleContinuation(f: Frame) returns (code: ErrorCode, out: seq<byte>, reqs: seq<Request>)
      requires Wf() == true && HeaderOk(Now().c)
      modifies this, dec, streams, streams.ids, streams.vals
      ensures Wf() == true && Meets(OnContinuation(old(Now()), f), code)
      ensures Wire(log) == old(Wire(log)) + out && Requests(log) == old(Requests(log)) + reqs
    {
      hide StreamTable.Valid, StreamTable.Layout, Kept, HpackDecoder.Valid, HpackDecoder.State, FinishBlock, Wire,
           Requests;
      out, reqs := [], [];
      if !hdr.expecting || f.id != hdr.id {
        return ProtocolError, [], [];
      }
      if |hdr.block| + |f.payload| > MAX_HEADER_BLOCK {
        return EnhanceYourCalm, [], [];
      }
      hdr := hdr.(block := hdr.block + f.payload);
      code := NoError;
      if Bit2(f.flags) {
        code, out, reqs := FinishHeaderBlock();
      }
    }

    /** `on_window_update` */
    method HandleWindowUpdate(f: Frame) returns (code: ErrorCode, out: seq<byte>)
      requires Wf() == true
      modifies this, streams, streams.ids, streams.vals
      ensures Wf() == true && Meets(OnWindowUpdate(old(Now()), f), code)
      ensures Wire(log) == old(Wire(log)) + out && Requests(log) == old(Requests(log))
    {
      hide StreamTable.Valid, StreamTable.Layout, Kept, HpackDecoder.Valid, HpackDecoder.State, Flush, FlushAll,
           Release, Encode, P.Ids, ReadU32;
      out := [];
      if |f.payload| != 4 {
        return FrameSizeError, [];
      }
      var inc := ReadU32(f.payload, 0) % 0x8000_0000;
      if f.id == 0 {
        if inc == 0 {
          return ProtocolError, [];
        }
        connSendWindow := connSendWindow + inc;
        if connSendWindow > MAX_WINDOW {
          return FlowControlError, [];
        }
        out := FlushEach();
        return NoError, out;
      }
      if f.id > lastStream {
        return ProtocolError, [];
      }
      code := NoError;
      if inc == 0 {
        out := AbortStream(f.id, ProtocolError);
        return;
      }
      out := CreditStream(f.id, inc);
    }

    method CreditStream(id: u31, inc: nat) returns (out: seq<byte>)
      requires Wf() == true
      modifies this, streams, streams.ids, streams.vals
      ensures Wf() == true && Now() == AfterCredit(old(Now()), id, inc)
      ensures Wire(log) == old(Wire(log)) + out && Requests(log) == old(Requests(log))
    {
      hide StreamTable.Valid, StreamTable.Layout, Kept, HpackDecoder.Valid, HpackDecoder.State, Flush, Release, Wire,
           Requests;
      out := [];
      var g := Get(id);
      if g.None? {
        return;
      }
      var s := states[g.value];
      Store(id, g.value, s.(sendWindow := s.sendWindow + inc), values[id].(sendWindow := values[id].sendWindow + inc));
      if s.sendWindow + inc > MAX_WINDOW {
        out := AbortStream(id, FlowControlError);
        return;
      }
      out := FlushPending(id);
    }

    /** The frames that need no table of their own: PRIORITY, RST_STREAM, PING, GOAWAY. */
    method HandleControl(f: Frame) returns (code: ErrorCode, out: seq<byte>)
      requires Wf() == true && f.typ in {PRIORITY, RST_STREAM, PING, GOAWAY}
      modifies this, streams, streams.ids, streams.vals
      ensures Wf() == true && Meets(OnControl(old(Now()), f), code)
      ensures Wire(log) == old(Wire(log)) + out && Requests(log) == old(Requests(log))
    {
      hide StreamTable.Valid, StreamTable.Layout, Kept, HpackDecoder.Valid, HpackDecoder.State, Release, Encode,
           ReadU32;
      code, out := NoError, [];
      if f.typ == PRIORITY {
        if f.id == 0 {
          return ProtocolError, [];
        }
        if |f.payload| != 5 {
          return FrameSizeError, [];
        }
        if ReadU32(f.payload, 0) % 0x8000_0000 == f.id {
          out := AbortStream(f.id, ProtocolError);
        }
      } else if f.typ == RST_STREAM {
        if f.id == 0 || f.id > lastStream {
          return ProtocolError, [];
        }
        if |f.payload| != 4 {
          return FrameSizeError, [];
        }
        ReleaseStream(f.id);
      } else if f.typ == PING {
        if f.id != 0 {
          return ProtocolError, [];
        }
        if |f.payload| != 8 {
          return FrameSizeError, [];
        }
        if !Bit0(f.flags) {
          out := WritePingAck(f.payload);
          log := Then(log, Sent(PingAckFrame(f.payload)));
        }
      } else {
        if f.id != 0 {
          return ProtocolError, [];
        }
        if |f.payload| < 8 {
          return FrameSizeError, [];
        }
      }
    }

    /** `frame`: dispatch one complete frame. */
    method HandleFrame(f: Frame) returns (code: ErrorCode, out: seq<byte>, reqs: seq<Request>)
      requires Wf() == true && HeaderOk(Now().c) && f.typ <= CONTINUATION
      modifies this, dec, streams, streams.ids, streams.vals
      ensures Wf() == true && Meets(OnFrame(old(Now()), f), code)
      ensures Wire(log) == old(Wire(log)) + out && Requests(log) == old(Requests(log)) + reqs
    {
      hide StreamTable.Valid, StreamTable.Layout, Kept, HpackDecoder.Valid, HpackDecoder.State, Wire, Requests,
           HeaderOk, OnData, OnHeaders, OnSettings, OnWindowUpdate, OnContinuation, Meets, OnPriority, OnReset, OnPing,
           OnGoaway;
      out, reqs := [], [];
      if hdr.expecting && f.typ != CONTINUATION {
        MeetsFailure(ProtocolError);
        return ProtocolError, [], [];
      }
      if f.typ == DATA {
        code, out, reqs := HandleData(f);
      } else if f.typ == HEADERS {
        code, out, reqs := HandleHeaders(f);
      } else if f.typ == SETTINGS {
        code, out := HandleSettings(f);
      } else if f.typ == PUSH_PROMISE {
        MeetsFailure(ProtocolError);
        code := ProtocolError;
      } else if f.typ == WINDOW_UPDATE {
        code, out := HandleWindowUpdate(f);
      } else if f.typ == CONTINUATION {
        code, out, reqs := HandleContinuation(f);
      } else {
        code, out := HandleControl(f);
      }
    }

    lemma MeetsFailure(code: ErrorCode)
      requires Wf() == true && code != NoError
      ensures Meets(Fail(Now(), code), code)
    {
    }

    // ----- the byte stream

    /** GOAWAY, as `consume` answers every connection error. */
    method WriteGoawayFrame(last: u31, code: ErrorCode) returns (out: seq<byte>)
      requires Wf() == true
      modifies this`log
      ensures Wf() == true && Now() == Send(old(Now()), GoawayFrame(last, code))
      ensures Wire(log) == old(Wire(log)) + out && Requests(log) == old(Requests(log))
    {
      hide StreamTable.Valid, StreamTable.Layout, Kept, HpackDecoder.Valid, HpackDecoder.State, Encode, GoawayFrame;
      out := WriteGoaway(last, code);
      log := Then(log, Sent(GoawayFrame(last, code)));
    }

    /** A known frame at the front of the buffer. */
    method TakeFrame(f: Frame) returns (close: bool, out: seq<byte>, reqs: seq<Request>)
      requires Wf() == true && HeaderOk(Now().c) && f.typ <= CONTINUATION
      modifies this, dec, streams, streams.ids, streams.vals
      ensures Wf() == true
      ensures var r := OnFrame(Note(old(Now()), Received(f)), f);
              && close == (r.code != NoError)
              && (if close then log == Then(r.w.log, Sent(GoawayFrame(r.w.c.lastStream, r.code))) else Now() == r.w)
      ensures Wire(log) == old(Wire(log)) + out && Requests(log) == old(Requests(log)) + reqs
    {
      hide StreamTable.Valid, StreamTable.Layout, Kept, HpackDecoder.Valid, HpackDecoder.State, HeaderOk, OnFrame,
           GoawayFrame, Encode;
      log := Then(log, Received(f));
      assert HeaderOk(Now().c);
      var code;
      code, out, reqs := HandleFrame(f);
      close := false;
      if code != NoError {
        var d := WriteGoawayFrame(lastStream, code);
        out := out + d;
        close := true;
      }
    }

    /** One turn of the loop of `consume`; n == 0 without close when no complete frame is left. */
    method ConsumeFrame(buf: seq<byte>) returns (n: nat, close: bool, out: seq<byte>, reqs: seq<Request>)
      requires Wf() == true && HeaderOk(Now().c)
      modifies this, dec, streams, streams.ids, streams.vals
      ensures Wf() == true
      ensures match Segmentation.Turn(old(Now()), buf)
              case None => n == 0 && !close && Now() == old(Now())
              case Some(t) => n == t.n && close == t.close && if close then log == t.w.log else Now() == t.w
      ensures Wire(log) == old(Wire(log)) + out && Requests(log) == old(Requests(log)) + reqs
    {
      hide StreamTable.Valid, StreamTable.Layout, Kept, HpackDecoder.Valid, HpackDecoder.State, HeaderOk, OnFrame,
           GoawayFrame, Encode, Join3, Join4;
      n, close, out, reqs := 0, false, [], [];
      var fh := ParseFrameHeader(buf);
      if fh.None? {
        return;
      }
      if fh.value.length > DEFAULT_MAX_FRAME_SIZE {
        out := WriteGoawayFrame(lastStream, FrameSizeError);
        close := true;
        return;
      }
      var total := FRAME_HEADER_LEN + fh.value.length;
      if |buf| < total {
        return;
      }
      var f := Frame(fh.value.typ, fh.value.flags, fh.value.id, buf[FRAME_HEADER_LEN..total]);
      if f.typ > CONTINUATION {
        if hdr.expecting {
          out := WriteGoawayFrame(lastStream, ProtocolError);
          close := true;
          return;
        }
        log := Then(log, Received(f));
        n := total;
        return;
      }
      n := total;
      close, out, reqs := TakeFrame(f);
    }

    /** The loop of `consume`. */
    method ConsumeAll(buf: seq<byte>) returns (consumed: nat, close: bool, out: seq<byte>, reqs: seq<Request>)
      requires Wf() == true && Inv(Now()) == true
      modifies this, dec, streams, streams.ids, streams.vals
      ensures Wf() == true
      ensures var r := ConsumeFrames(old(Now()), buf);
              consumed == r.n && close == r.close && if close then log == r.w.log else Now() == r.w
      ensures Wire(log) == old(Wire(log)) + out && Requests(log) == old(Requests(log)) + reqs
    {
      hide StreamTable.Valid, StreamTable.Layout, Kept, HpackDecoder.Valid, HpackDecoder.State, Inv, ConsumeFrames,
           Segmentation.Turn, Wire, Requests, Safe, HeaderOk;
      consumed, close, out, reqs := 0, false, [], [];
      assert buf[0..] == buf;
      while true
        invariant Wf() == true && Inv(Now()) == true && consumed <= |buf| && !close
        invariant ConsumeFrames(old(Now()), buf) == Shift(ConsumeFrames(Now(), buf[consumed..]), consumed)
        invariant Wire(log) == old(Wire(log)) + out && Requests(log) == old(Requests(log)) + reqs
        decreases |buf| - consumed
      {
        Segmentation.TurnUnfold(Now(), buf[consumed..]);
        ConnRuns.TurnGood(Now(), buf[consumed..]);
        HeaderReady(Now());
        var n, d, r;
        n, close, d, r := ConsumeFrame(buf[consumed..]);
        out, reqs := out + d, reqs + r;
        assert buf[consumed..][n..] == buf[consumed + n..];
        consumed := consumed + n;
        if close || n == 0 {
          return;
        }
      }
    }

    /** `consume`: what was consumed, whether to close, and what goes to the peer and to the application. */
    method Feed(buf: seq<byte>) returns (consumed: nat, close: bool, out: seq<byte>, reqs: seq<Request>)
      requires Wf() == true && Inv(Now()) == true
      modifies this, dec, streams, streams.ids, streams.vals
      ensures Wf() == true
      ensures var r := Consume(old(Now()), buf);
              consumed == r.n && close == r.close && if close then log == r.w.log else Now() == r.w
      ensures Wire(log) == old(Wire(log)) + out && Requests(log) == old(Requests(log)) + reqs
    {
      hide StreamTable.Valid, StreamTable.Layout, Kept, HpackDecoder.Valid, HpackDecoder.State, Inv, ConsumeFrames,
           Wire, Requests, Ascii;
      if prefaceSeen {
        consumed, close, out, reqs := ConsumeAll(buf);
        return;
      }
      reqs := [];
      if |buf| < |PREFACE_TAIL| {
        return 0, false, [], [];
      }
      for i := 0 to |PREFACE_TAIL|
        invariant buf[..i] == PREFACE_TAIL[..i]
      {
        if buf[i] != PREFACE_TAIL[i] {
          assert buf[..|PREFACE_TAIL|][i] == buf[i];
          out := WriteGoawayFrame(0, ProtocolError);
          return 0, true, out, [];
        }
      }
      ConnRuns.PrefaceInv(Now());
      prefaceSeen := true;
      consumed, close, out, reqs := ConsumeAll(buf[|PREFACE_TAIL|..]);
      consumed := consumed + |PREFACE_TAIL|;
    }

    /** `write_server_preface` */
    method WriteServerPreface() returns (out: seq<byte>)
      requires Wf() == true
      modifies this`log
      ensures Wf() == true && Now() == Send(old(Now()), SettingsFrame(ServerSettings()))
      ensures Wire(log) == old(Wire(log)) + out && Requests(log) == old(Requests(log))
    {
      hide StreamTable.Valid, StreamTable.Layout, Kept, HpackDecoder.Valid, HpackDecoder.State, Encode, SettingsFrame;
      out := WriteSettings(ServerSettings());
      log := Then(log, Sent(SettingsFrame(ServerSettings())));
    }

    // ----- what the object adds to the theorems about runs

    /** One call of the public interface. */
    method Serve(call: Call) returns (close: bool, out: seq<byte>, reqs: seq<Request>)
      requires Wf() == true && Inv(Now()) == true
      modifies this, dec, streams, streams.ids, streams.vals
      ensures Wf() == true
      ensures var p := Perform(old(Now()), call);
              close == p.close && if close then log == p.w.log else Now() == p.w && Inv(Now()) == true
      ensures Wire(log) == old(Wire(log)) + out && Requests(log) == old(Requests(log)) + reqs
    {
      hide StreamTable.Valid, StreamTable.Layout, Kept, HpackDecoder.Valid, HpackDecoder.State, Inv, Consume,
           WriteBlock, WriteBody, WriteTrailers, Release, SettingsFrame;
      StaysInOrder(Now(), call);
      close, reqs := false, [];
      match call
      case Preface => out := WriteServerPreface();
      case Feed(buf) =>
        var consumed;
        consumed, close, out, reqs := Feed(buf);
      case Headers(id, block, end) =>
        log := Then(log, WroteHeaders(id, end));
        out := WriteResponseHeaders(id, block, end);
      case Body(id, body, end) => out := WriteResponseBody(id, body, end);
      case Trailers(id, block) => out := WriteResponseTrailers(id, block);
      case Abort(id, code) => out := AbortStream(id, code);
    }

    /** Open streams never share a state, and none of their states is in the free list. */
    lemma StatesApart(a: nat, b: nat)
      requires Wf() == true && a in values && b in values
      ensures a in streams.entries && b in streams.entries && streams.entries[a] !in freeStreams
      ensures a != b ==> streams.entries[a] != streams.entries[b]
    {
      hide StreamTable.Valid, Is;
    }

    /** As many states are ever allocated as streams were open at once. */
    lemma StatesArePeak()
      requires Wf() == true && Inv(Now()) == true
      ensures |states| == TotalsOf(log).peak <= MAX_CONCURRENT_STREAMS
    {
      Opens(0);
      hide StreamTable.Valid, Kept, TallyOf, TotalsOf, Safe, IdsOk, AllParkedOk;
    }
  }

  /** A DATA frame sent, charged to the connection, on a stream that becomes v. */
  ghost function Sending(w: World, id: nat, v: Stream, data: seq<byte>, last: bool): World {
    var w1 := Update(w, id, v);
    Send(w1.(c := w1.c.(connSendWindow := w1.c.connSendWindow - |data|)), DataFrame(id, data, last))
  }

  /** What `write_response_body` does with what its loop left over. */
  ghost function Parking(e: Emitted, id: nat, end: bool): World {
    if id !in e.w.c.streams then e.w
    else
      var s := e.w.c.streams[id];
      if e.rest != [] then Update(e.w, id, s.(parked := s.parked + e.rest, parkedEnd := end))
      else if end then Release(e.w, id)
      else e.w
  }

  /** The effect of one parameter of a SETTINGS frame. */
  ghost function AppliedOne(c: Conn, st: Setting, changed: bool): Applied {
    if st.id == SETTING_INITIAL_WINDOW_SIZE then
      if st.val > MAX_WINDOW then Applied(c, FlowControlError, changed)
      else Applied(c.(initSendWindow := st.val, streams := AdjustWindows(c.streams, st.val - c.initSendWindow)),
                   NoError, true)
    else if st.id == SETTING_MAX_FRAME_SIZE then
      if st.val < DEFAULT_MAX_FRAME_SIZE || st.val > LARGEST_MAX_FRAME_SIZE then Applied(c, ProtocolError, changed)
      else Applied(c.(peerMaxFrame := st.val), NoError, changed)
    else if st.id == SETTING_ENABLE_PUSH && st.val > 1 then Applied(c, ProtocolError, changed)
    else Applied(c, NoError, changed)
  }

  lemma ApplyUnfold(c: Conn, ss: seq<Setting>, changed: bool)
    ensures ss == [] ==> ApplySettings(c, ss, changed) == Applied(c, NoError, changed)
    ensures ss != [] ==>
              var a := AppliedOne(c, ss[0], changed);
              ApplySettings(c, ss, changed) == if a.code != NoError then a else ApplySettings(a.c, ss[1..], a.changed)
  {
    hide AdjustWindows;
  }

  lemma ReleaseForgets(w: World, id: nat, v: Stream)
    requires id in w.c.streams
    ensures Release(Update(w, id, v), id) == Release(w, id)
  {
    assert w.c.streams[id := v] - {id} == w.c.streams - {id};
  }

  /** A block that is neither trailers nor refused may open its stream. */
  ghost predicate Announceable(c: Conn) {
    !c.hdr.trailers && !c.hdr.refused ==>
      c.hdr.id != 0 && c.hdr.id !in c.streams && |c.streams| < MAX_CONCURRENT_STREAMS
  }

  ghost function Filled(window: int, fields: seq<Field>, malformed: bool, declared: int): Stream {
    FreshStream(window).(headers := fields, rejected := malformed, declaredLen := declared)
  }

  ghost function OpenedWith(w: World, fields: seq<Field>): World {
    var h, ok := w.c.hdr, Rules.ValidRequest(fields);
    var malformed := h.malformed || !ok;
    var w1 := Open(w, h.id,
                   Filled(w.c.initSendWindow, fields, malformed, if ok then Rules.DeclaredLength(fields) else -1));
    var w2 := if malformed then Send(w1, RstFrame(h.id, ProtocolError)) else w1;
    if h.endStream then Complete(w2, h.id) else w2
  }

  ghost function Finished(w: World, fields: seq<Field>): World {
    var h := w.c.hdr;
    if h.trailers then
      if !Rules.ValidTrailers(fields) then Release(Send(w, RstFrame(h.id, ProtocolError)), h.id) else Complete(w, h.id)
    else if h.refused then Send(w, RstFrame(h.id, RefusedStream))
    else OpenedWith(w, fields)
  }

  lemma FinishCases(w: World)
    ensures var d := HpackBlock.DecodeBlock(w.c.dec, w.c.hdr.block);
            var w1 := w.(c := w.c.(hdr := w.c.hdr.(expecting := false), dec := d.table));
            FinishBlock(w) == if d.ok then Ok(Finished(w1, d.fields)) else Fail(w1, CompressionError)
  {
    hide HpackBlock.DecodeBlock, Complete, Release, Open, Rules.ValidRequest, Rules.ValidTrailers, Rules.DeclaredLength;
  }

  /** The field block of a HEADERS frame within its padding and priority. */
  ghost function FragmentRange(f: Frame): (Option<(nat, nat)>, bool) {
    match Unpad(f.flags, f.payload)
    case None => (None, false)
    case Some((off, end)) =>
      if !Bit5(f.flags) then (Some((off, end)), false)
      else if off + 5 > end then (None, false)
      else
        var start: nat := off + 5;
        (Some((start, end)), ReadU32(f.payload, off) % 0x8000_0000 == f.id)
  }

  lemma StartCases(c: Conn, f: Frame)
    ensures var (r, malformed) := FragmentRange(f);
            && (r.Some? ==> r.value.0 <= r.value.1 <= |f.payload|)
            && StartBlock(c, f) ==
               if f.id == 0 || f.id % 2 == 0 || r.None? then Bad(ProtocolError)
               else if f.id in c.streams then
                 if c.streams[f.id].remoteDone then Bad(StreamClosed)
                 else if !Bit0(f.flags) then Bad(ProtocolError)
                 else Begin(Assembly(true, f.id, Bit0(f.flags), false, true, malformed,
                                     f.payload[r.value.0..r.value.1]),
                            c.lastStream)
               else if f.id <= c.lastStream then Bad(ProtocolError)
               else Begin(Assembly(true, f.id, Bit0(f.flags), |c.streams| >= MAX_CONCURRENT_STREAMS, false, malformed,
                                   f.payload[r.value.0..r.value.1]), f.id)
  {
    hide Unpad;
  }

  lemma StartAnnounceable(c: Conn, f: Frame)
    ensures match StartBlock(c, f)
            case Bad(_) => true
            case Begin(h, last) => Announceable(c.(hdr := h, lastStream := last))
  {
    StartCases(c, f);
    hide FragmentRange, StartBlock;
  }

  lemma StaysInOrder(w: World, call: Call)
    requires Inv(w) == true
    ensures !Perform(w, call).close ==> Inv(Perform(w, call).w) == true
  {
    ConnRuns.PerformGood(w, call);
  }

  lemma HeaderReady(w: World)
    requires Inv(w) == true
    ensures HeaderOk(w.c)
  {
  }

  ghost function AfterCredit(w: World, id: u31, inc: nat): World {
    if id !in w.c.streams then w
    else
      var s := w.c.streams[id];
      var w1 := Update(w, id, s.(sendWindow := s.sendWindow + inc));
      if s.sendWindow + inc > MAX_WINDOW then Release(Send(w1, RstFrame(id, FlowControlError)), id) else Flush(w1, id)
  }

  ghost function OnControl(w: World, f: Frame): Result {
    if f.typ == PRIORITY then OnPriority(w, f)
    else if f.typ == RST_STREAM then OnReset(w, f)
    else if f.typ == PING then OnPing(w, f)
    else OnGoaway(w, f)
  }

  ghost function RecvCharged(w: World, id: nat, flow: nat): World
    requires id in w.c.streams
  {
    var w1 := Update(w, id, w.c.streams[id].(recvWindow := w.c.streams[id].recvWindow - flow));
    w1.(c := w1.c.(connRecvWindow := w1.c.connRecvWindow - flow))
  }

  ghost function WithContent(s: Stream, f: Frame, content: seq<byte>): Stream {
    s.(body := if s.rejected then s.body else s.body + content,
       recvWindow := if Bit0(f.flags) then s.recvWindow - |f.payload| else s.recvWindow)
  }

  lemma ContentIs(s: StreamState, t: Stream, f: Frame, content: seq<byte>)
    requires Is(s, t.(recvWindow := t.recvWindow - |f.payload|))
    ensures Is(s.(body := if s.rejected then s.body else s.body + content,
                  recvWindow := if Bit0(f.flags) then s.recvWindow else s.recvWindow + |f.payload|),
               WithContent(t, f, content))
  {
  }

  ghost function Replenished(w: World, id: nat, flow: nat, fin: bool): World {
    if flow == 0 then w
    else
      var w1 := Send(w, WindowUpdateFrame(0, flow));
      if fin then w1 else Send(w1, WindowUpdateFrame(id, flow))
  }

  /** A DATA frame's content taken, both windows replenished, and the request completed when the frame ends it. */
  ghost function Taken(w: World, f: Frame, content: seq<byte>): World
    requires f.id in w.c.streams
  {
    var w1 := Replenished(Update(w, f.id, WithContent(w.c.streams[f.id], f, content)), f.id, |f.payload|,
                          Bit0(f.flags));
    if Bit0(f.flags) then Complete(w1, f.id) else w1
  }

  /** `on_data`, check by check. */
  lemma OnDataCases(w: World, f: Frame)
    ensures var r := OnData(w, f);
            if f.id == 0 then r == Fail(w, ProtocolError)
            else if f.id !in w.c.streams then
              r == Fail(w, if f.id > w.c.lastStream then ProtocolError else StreamClosed)
            else
              var s, u := w.c.streams[f.id], Unpad(f.flags, f.payload);
              if s.remoteDone then r == Fail(w, StreamClosed)
              else if w.c.connRecvWindow - |f.payload| < 0 || s.recvWindow - |f.payload| < 0 then
                r == Fail(w, FlowControlError)
              else if u.None? then r == Fail(w, ProtocolError)
              else if !s.rejected && |s.body| + (u.value.1 - u.value.0) > MAX_BODY_BYTES then
                r == Fail(w, EnhanceYourCalm)
              else r == Ok(Taken(w, f, f.payload[u.value.0..u.value.1]))
  {
    hide Complete, Unpad;
  }

  lemma TakenStep(w: World, id: nat, flow: nat, v: Stream)
    requires id in w.c.streams
    ensures var w1 := RecvCharged(w, id, flow);
            && id in w1.c.streams
            && w1.c.streams[id] == w.c.streams[id].(recvWindow := w.c.streams[id].recvWindow - flow)
            && Update(w, id, v) ==
               w1.(c := w1.c.(streams := w1.c.streams[id := v], connRecvWindow := w1.c.connRecvWindow + flow))
  {
    var s := w.c.streams[id].(recvWindow := w.c.streams[id].recvWindow - flow);
    assert w.c.streams[id := s][id := v] == w.c.streams[id := v];
  }

  ghost function WithStreams(w: World, streams: map<nat, Stream>): World {
    w.(c := w.c.(streams := streams))
  }

  /** The streams once the slots before i have been adjusted. */
  ghost function Partly(streams: map<nat, Stream>, slots: P.Slots, i: nat, delta: int): map<nat, Stream> {
    map id | id in streams ::
      if P.Find(slots, id) < i then streams[id].(sendWindow := streams[id].sendWindow + delta) else streams[id]
  }

  lemma PartlyKeys(streams: map<nat, Stream>, slots: P.Slots, i: nat, delta: int)
    ensures Partly(streams, slots, i, delta).Keys == streams.Keys
  {
  }

  ghost predicate Listed(streams: map<nat, Stream>, slots: P.Slots) {
    P.Valid(slots) && forall id :: id in streams ==> P.Holds(slots, id)
  }

  lemma PartlyEnds(streams: map<nat, Stream>, slots: P.Slots, delta: int)
    requires Listed(streams, slots) == true
    ensures Partly(streams, slots, 0, delta) == streams
    ensures Partly(streams, slots, P.SLOTS, delta) == AdjustWindows(streams, delta)
  {
    hide P.Valid, P.Find, P.Holds;
    forall id | id in streams ensures 0 <= P.Find(slots, id) < P.SLOTS { P.FindAt(slots, id, 0); }
  }

  /** Each open stream is in one slot, so the walk adjusts it once. */
  lemma PartlyStep(streams: map<nat, Stream>, slots: P.Slots, i: P.Slot, delta: int)
    requires Listed(streams, slots) == true
    ensures var k := slots[i];
            var p, q := Partly(streams, slots, i, delta), Partly(streams, slots, i + 1, delta);
            if k !in streams then q == p
            else k in p && q == p[k := p[k].(sendWindow := p[k].sendWindow + delta)]
  {
    hide P.Valid, P.Find, P.Holds;
    var k := slots[i];
    forall id | id in streams ensures P.Find(slots, id) == i <==> id == k { P.FindAt(slots, id, i); }
    var p, q := Partly(streams, slots, i, delta), Partly(streams, slots, i + 1, delta);
    assert p.Keys == q.Keys == streams.Keys;
  }

  /** w with q parked on stream id. */
  ghost function WithParked(w: World, id: nat, q: seq<byte>): World
    requires id in w.c.streams
  {
    Update(w, id, w.c.streams[id].(parked := q))
  }

  /** The loop of `flush_pending`: what is parked, sent as far as the windows let it. */
  ghost function Drain(w: World, id: nat): World
    requires id in w.c.streams
  {
    var e := EmitData(w, id, w.c.streams[id].parked, w.c.streams[id].parkedEnd);
    EmitKeepsOpen(w, id, w.c.streams[id].parked, w.c.streams[id].parkedEnd);
    WithParked(e.w, id, e.rest)
  }

  lemma ParkedTwice(w: World, id: nat, p: seq<byte>, q: seq<byte>)
    requires id in w.c.streams
    ensures WithParked(WithParked(w, id, p), id, q) == WithParked(w, id, q)
  {
    var s := w.c.streams[id];
    assert w.c.streams[id := s.(parked := p)][id := s.(parked := q)] == w.c.streams[id := s.(parked := q)];
  }

  lemma SendDataParked(w: World, id: nat, p: seq<byte>, data: seq<byte>, last: bool)
    requires id in w.c.streams
    ensures SendData(WithParked(w, id, p), id, data, last) == WithParked(SendData(w, id, data, last), id, p)
  {
    var s := w.c.streams[id];
    var t := s.(sendWindow := s.sendWindow - |data|);
    assert w.c.streams[id := s.(parked := p)][id := t.(parked := p)] == w.c.streams[id := t.(parked := p)];
    assert w.c.streams[id := t][id := t.(parked := p)] == w.c.streams[id := t.(parked := p)];
  }

  /** What is parked does not change what goes out. */
  lemma {:induction false} EmitParked(w: World, id: nat, p: seq<byte>, data: seq<byte>, end: bool)
    requires id in w.c.streams
    ensures var e := EmitData(w, id, data, end);
            && id in e.w.c.streams
            && EmitData(WithParked(w, id, p), id, data, end) == Emitted(WithParked(e.w, id, p), e.rest)
    decreases |data|
  {
    EmitKeepsOpen(w, id, data, end);
    EmitUnfold(w, id, data, end);
    EmitUnfold(WithParked(w, id, p), id, data, end);
    hide EmitData;
    if data != [] && Allow(w.c, w.c.streams[id]) > 0 {
      var n := ChunkSize(w.c, w.c.streams[id], |data|);
      var last := n == |data| && end;
      SendDataParked(w, id, p, data[..n], last);
      EmitParked(SendData(w, id, data[..n], last), id, p, data[n..], end);
    }
  }

  lemma DrainStep(w: World, id: nat)
    requires id in w.c.streams && w.c.streams[id].parked != []
    ensures var s := w.c.streams[id];
            if Allow(w.c, s) <= 0 then Drain(w, id) == w
            else
              var n := ChunkSize(w.c, s, |s.parked|);
              Drain(w, id) ==
              Drain(Sending(w, id, s.(sendWindow := s.sendWindow - n, parked := s.parked[n..]), s.parked[..n],
                            n == |s.parked| && s.parkedEnd), id)
  {
    var s := w.c.streams[id];
    EmitUnfold(w, id, s.parked, s.parkedEnd);
    hide EmitData;
    if Allow(w.c, s) <= 0 {
      assert w.c.streams[id := s] == w.c.streams;
    } else {
      var n := ChunkSize(w.c, s, |s.parked|);
      DrainMore(w, id, n, n == |s.parked| && s.parkedEnd);
      hide Drain, Sending, SendData;
    }
  }

  lemma DrainMore(w: World, id: nat, n: nat, last: bool)
    requires id in w.c.streams && n <= |w.c.streams[id].parked|
    requires var s := w.c.streams[id];
             var w1 := SendData(w, id, s.parked[..n], last);
             EmitData(w, id, s.parked, s.parkedEnd) == EmitData(w1, id, s.parked[n..], s.parkedEnd)
    ensures var s := w.c.streams[id];
            Drain(w, id) == Drain(Sending(w, id, s.(sendWindow := s.sendWindow - n, parked := s.parked[n..]),
                                          s.parked[..n], last), id)
  {
    var s := w.c.streams[id];
    var w1, rest := SendData(w, id, s.parked[..n], last), s.parked[n..];
    SendingParked(w, id, n, last);
    EmitParked(w1, id, rest, rest, s.parkedEnd);
    var e := EmitData(w1, id, rest, s.parkedEnd);
    ParkedTwice(e.w, id, rest, e.rest);
    assert WithParked(w1, id, rest).c.streams[id].parkedEnd == s.parkedEnd;
    hide EmitData, Sending;
  }

  lemma DrainNothing(w: World, id: nat)
    requires id in w.c.streams && w.c.streams[id].parked == []
    ensures Drain(w, id) == w
  {
    EmitUnfold(w, id, [], w.c.streams[id].parkedEnd);
    hide EmitData;
    assert w.c.streams[id := w.c.streams[id]] == w.c.streams;
  }

  lemma FlushUnfold(w: World, id: nat)
    ensures id !in w.c.streams ==> Flush(w, id) == w
    ensures id in w.c.streams ==> id in Drain(w, id).c.streams && Flush(w, id) == AfterFlush(Drain(w, id), id)
  {
    if id in w.c.streams {
      EmitKeepsOpen(w, id, w.c.streams[id].parked, w.c.streams[id].parkedEnd);
    }
  }

  lemma SendingParked(w: World, id: nat, n: nat, last: bool)
    requires id in w.c.streams && n <= |w.c.streams[id].parked|
    ensures var s := w.c.streams[id];
            WithParked(SendData(w, id, s.parked[..n], last), id, s.parked[n..]) ==
            Sending(w, id, s.(sendWindow := s.sendWindow - n, parked := s.parked[n..]), s.parked[..n], last)
  {
    var s := w.c.streams[id];
    var t := s.(sendWindow := s.sendWindow - n);
    assert w.c.streams[id := t][id := t.(parked := s.parked[n..])] == w.c.streams[id := t.(parked := s.parked[n..])];
  }

  lemma PendingGrows(s: StreamState, v: Stream, rest: seq<byte>, end: bool)
    requires Is(s, v)
    ensures Is(s.(pending := s.pending + rest, pendingEnd := end), v.(parked := v.parked + rest, parkedEnd := end))
  {
    assert (s.pending + rest)[s.pendingOff..] == s.pending[s.pendingOff..] + rest;
  }

  lemma {:induction false} SendAllLog(w: World, fs: seq<Frame>)
    ensures SendAll(w, fs).c == w.c
    ensures Wire(SendAll(w, fs).log) == Wire(w.log) + EncodeAll(fs)
    ensures Requests(SendAll(w, fs).log) == Requests(w.log)
    decreases |fs|
  {
    hide Encode;
    if fs != [] {
      SendAllLog(Send(w, fs[0]), fs[1..]);
      EncodeAllCons(fs[0], fs[1..]);
      assert fs == [fs[0]] + fs[1..];
    }
  }

  /** A new connection through any sequence of calls: it closes, writes and surfaces what the run of the model does. */
  method Drive(calls: seq<Call>) returns (close: bool, out: seq<byte>, reqs: seq<Request>)
    ensures close == Run(NewWorld(), calls).close
    ensures out == Wire(Run(NewWorld(), calls).w.log) && reqs == Requests(Run(NewWorld(), calls).w.log)
    ensures ParseAll(out) == Some(SentFrames(Run(NewWorld(), calls).w.log))
  {
    ConnRuns.OutputWellFramed(calls);
    hide StreamTable.Valid, StreamTable.Layout, Kept, HpackDecoder.Valid, HpackDecoder.State, Inv, Perform;
    NewWorldInv();
    var conn := new ServerConn();
    close, out, reqs := false, [], [];
    assert calls[0..] == calls;
    for i := 0 to |calls|
      invariant conn.Wf() == true && Inv(conn.Now()) == true && !close
      invariant fresh(conn) && fresh(conn.dec)
      invariant fresh(conn.streams) && fresh(conn.streams.ids) && fresh(conn.streams.vals)
      invariant Run(conn.Now(), calls[i..]) == Run(NewWorld(), calls)
      invariant out == Wire(conn.log) && reqs == Requests(conn.log)
    {
      assert calls[i..][0] == calls[i] && calls[i..][1..] == calls[i + 1..];
      var d, r;
      close, d, r := conn.Serve(calls[i]);
      out, reqs := out + d, reqs + r;
      if close {
        return;
      }
    }
  }
}
