// What a log of the connection adds up to, per stream and in total, and what it means for a log to be safe.
module ConnLog {
  import opened Bytes
  import opened Frames
  import opened HpackTable
  import opened ConnModel
  import Rules = RequestRules

  // ----- reading frames as a peer would

  /** A DATA frame's payload without its padding. */
  function Content(f: Frame): seq<byte> {
    match Unpad(f.flags, f.payload)
    case None => []
    case Some((off, end)) => f.payload[off..end]
  }

  function Increment(f: Frame): nat {
    if |f.payload| == 4 then ReadU32(f.payload, 0) % 0x8000_0000 else 0
  }

  function SettledInit(init: nat, ss: seq<Setting>): nat
    decreases |ss|
  {
    if ss == [] then init
    else if ss[0].id == SETTING_INITIAL_WINDOW_SIZE && ss[0].val <= MAX_WINDOW then SettledInit(ss[0].val, ss[1..])
    else SettledInit(init, ss[1..])
  }

  function SettledMax(max: FrameSize, ss: seq<Setting>): FrameSize
    decreases |ss|
  {
    if ss == [] then max
    else if ss[0].id == SETTING_MAX_FRAME_SIZE && DEFAULT_MAX_FRAME_SIZE <= ss[0].val <= LARGEST_MAX_FRAME_SIZE then
      SettledMax(ss[0].val, ss[1..])
    else SettledMax(max, ss[1..])
  }

  /** The parameters a received frame announces; an acknowledgement announces none. */
  function Announced(f: Frame): seq<Setting> {
    if f.typ != SETTINGS || f.id != 0 || Bit0(f.flags) then []
    else
      match SettingsOf(f.payload)
      case None => []
      case Some(ss) => ss
  }

  // ----- per stream

  /** Window credit received, DATA sent, DATA content received, bodies the application wrote. */
  datatype Tally = Tally(credit: nat, out: seq<byte>, into: seq<byte>, bodies: seq<byte>, everOpened: bool,
                         surfaced: bool)

  function Tallied(t: Tally, e: Event, id: nat): Tally {
    match e
    case Received(f) =>
      if f.id != id then t
      else if f.typ == DATA then t.(into := t.into + Content(f))
      else if f.typ == WINDOW_UPDATE then t.(credit := t.credit + Increment(f))
      else t
    case Sent(f) => if f.id == id && f.typ == DATA then t.(out := t.out + f.payload) else t
    case Opened(x) => if x == id then t.(everOpened := true) else t
    case Surfaced(r) => if r.id == id then t.(surfaced := true) else t
    case WroteBody(x, body, _) => if x == id then t.(bodies := t.bodies + body) else t
    case _ => t
  }

  function TallyOf(log: Log, id: nat): Tally {
    match log
    case Nothing => Tally(0, [], [], [], false, false)
    case Then(before, e) => Tallied(TallyOf(before, id), e, id)
  }

  // ----- in total

  datatype Totals = Totals(
    credit: nat, out: nat, into: nat, creditOut: nat, open: int, peak: int, init: nat, maxFrame: FrameSize)

  function Totalled(t: Totals, e: Event): Totals {
    match e
    case Received(f) =>
      if f.typ == DATA then t.(into := t.into + |f.payload|)
      else if f.typ == WINDOW_UPDATE && f.id == 0 then t.(credit := t.credit + Increment(f))
      else t.(init := SettledInit(t.init, Announced(f)), maxFrame := SettledMax(t.maxFrame, Announced(f)))
    case Sent(f) =>
      if f.typ == DATA then t.(out := t.out + |f.payload|)
      else if f.typ == WINDOW_UPDATE && f.id == 0 then t.(creditOut := t.creditOut + Increment(f))
      else t
    case Opened(_) => t.(open := t.open + 1, peak := Max(t.peak, t.open + 1))
    case Released(_) => t.(open := t.open - 1)
    case _ => t
  }

  function TotalsOf(log: Log): Totals {
    match log
    case Nothing => Totals(0, 0, 0, 0, 0, 0, DEFAULT_WINDOW_SIZE, DEFAULT_MAX_FRAME_SIZE)
    case Then(before, e) => Totalled(TotalsOf(before), e)
  }

  // ----- safety of a log

  /** A frame the server writes fits the peer's frame size, and a DATA frame with content fits both windows,
      as the frames exchanged so far define them (RFC 9113 sections 4.2 and 6.9). */
  ghost predicate FrameAllowed(before: Log, f: Frame) {
    && |f.payload| <= TotalsOf(before).maxFrame
    && (f.typ == DATA && f.payload != [] ==>
          && TotalsOf(before).out + |f.payload| <= DEFAULT_WINDOW_SIZE + TotalsOf(before).credit
          && |TallyOf(before, f.id).out| + |f.payload| <= TotalsOf(before).init + TallyOf(before, f.id).credit)
  }

  /** A request is surfaced once, well formed, with the content of its DATA frames as body and no other length
      than the declared one (RFC 9113 sections 8.1 to 8.3). */
  ghost predicate RequestSound(before: Log, r: Request) {
    && !TallyOf(before, r.id).surfaced
    && Rules.ValidRequest(r.headers)
    && r.body == TallyOf(before, r.id).into
    && (Rules.DeclaredLength(r.headers) >= 0 ==> Rules.DeclaredLength(r.headers) == |r.body|)
  }

  ghost predicate EventSafe(before: Log, e: Event) {
    match e
    case Sent(f) => FrameAllowed(before, f)
    case Surfaced(r) => RequestSound(before, r)
    case _ => true
  }

  ghost predicate Safe(log: Log) {
    match log
    case Nothing => true
    case Then(before, e) => Safe(before) && EventSafe(before, e)
  }

  // ----- the wire

  function SentFrames(log: Log): seq<Frame> {
    match log
    case Nothing => []
    case Then(before, Sent(f)) => SentFrames(before) + [f]
    case Then(before, _) => SentFrames(before)
  }

  /** The octets the server has written. */
  function Wire(log: Log): seq<byte> {
    match log
    case Nothing => []
    case Then(before, Sent(f)) => Wire(before) + Encode(f)
    case Then(before, _) => Wire(before)
  }

  function Requests(log: Log): seq<Request> {
    match log
    case Nothing => []
    case Then(before, Surfaced(r)) => Requests(before) + [r]
    case Then(before, _) => Requests(before)
  }

  lemma {:induction false} WireIsEncodedFrames(log: Log)
    ensures Wire(log) == EncodeAll(SentFrames(log))
  {
    match log
    case Nothing =>
    case Then(before, e) =>
      WireIsEncodedFrames(before);
      if e.Sent? {
        assert SentFrames(log)[..|SentFrames(log)| - 1] == SentFrames(before);
      }
  }

  lemma {:induction false} SafeFramesEncodable(log: Log)
    requires Safe(log)
    ensures forall i :: 0 <= i < |SentFrames(log)| ==> Encodable(SentFrames(log)[i])
  {
    match log
    case Nothing =>
    case Then(before, e) => SafeFramesEncodable(before);
  }

  /** Everything a safe run has written parses back as consecutive complete frames: exactly the ones sent. */
  lemma WireWellFramed(log: Log)
    requires Safe(log)
    ensures ParseAll(Wire(log)) == Some(SentFrames(log))
  {
    hide EncodeAll, ParseAll;
    WireIsEncodedFrames(log);
    SafeFramesEncodable(log);
    ParseAllEncodeAll(SentFrames(log));
  }

  // ----- settings

  lemma {:induction false} AdjustTwice(streams: map<nat, Stream>, a: int, b: int)
    ensures AdjustWindows(AdjustWindows(streams, a), b) == AdjustWindows(streams, a + b)
  {
    var x, y := AdjustWindows(AdjustWindows(streams, a), b), AdjustWindows(streams, a + b);
    assert x.Keys == y.Keys;
  }

  lemma AdjustZero(streams: map<nat, Stream>)
    ensures AdjustWindows(streams, 0) == streams
  {
    assert AdjustWindows(streams, 0).Keys == streams.Keys;
  }

  /** Settings take effect as announced, and every open stream's window moves by the change of the initial one. */
  lemma {:induction false} ApplySettingsEffect(c: Conn, ss: seq<Setting>, changed: bool)
    requires c.initSendWindow >= 0 && ApplySettings(c, ss, changed).code == NoError
    ensures var a := ApplySettings(c, ss, changed);
            && a.c.initSendWindow == SettledInit(c.initSendWindow, ss)
            && a.c.peerMaxFrame == SettledMax(c.peerMaxFrame, ss)
            && a.c.streams == AdjustWindows(c.streams, a.c.initSendWindow - c.initSendWindow)
            && (!a.changed ==> a.c.initSendWindow == c.initSendWindow)
            && (c.initSendWindow <= MAX_WINDOW ==> a.c.initSendWindow <= MAX_WINDOW)
            && (changed ==> a.changed)
    decreases |ss|
  {
    hide AdjustWindows;
    if ss == [] {
      AdjustZero(c.streams);
    } else {
      var st := ss[0];
      if st.id == SETTING_INITIAL_WINDOW_SIZE {
        var delta := st.val - c.initSendWindow;
        var c1 := c.(initSendWindow := st.val, streams := AdjustWindows(c.streams, delta));
        ApplySettingsEffect(c1, ss[1..], true);
        var a := ApplySettings(c1, ss[1..], true);
        AdjustTwice(c.streams, delta, a.c.initSendWindow - st.val);
      } else if st.id == SETTING_MAX_FRAME_SIZE {
        ApplySettingsEffect(c.(peerMaxFrame := st.val), ss[1..], changed);
      } else {
        ApplySettingsEffect(c, ss[1..], changed);
      }
    }
  }
}
