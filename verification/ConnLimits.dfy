// Section 6.9.2 of RFC 9113: a change of the initial window that pushes a stream's window past 2^31-1 is an error. The
// code does not check it (http2/conn.v); this is exactly when it matters.
module ConnLimits {
  import opened Bytes
  import opened Frames
  import opened ConnModel
  import opened ConnLog
  import opened ConnInv
  import opened ConnRecv
  import opened ConnRuns

  // ----- what the section requires

  ghost predicate Overflows(streams: map<nat, Stream>) {
    exists id: nat :: id in streams && streams[id].sendWindow > MAX_WINDOW
  }

  /** The parameters in order, as the section has them: the change itself is refused when a window overflows. */
  ghost function StrictSettings(c: Conn, ss: seq<Setting>, changed: bool): Applied
    decreases |ss|
  {
    if ss == [] then Applied(c, NoError, changed)
    else
      var st := ss[0];
      if st.id == SETTING_INITIAL_WINDOW_SIZE then
        if st.val > MAX_WINDOW then Applied(c, FlowControlError, changed)
        else
          var c1 := WithInitial(c, st.val);
          if Overflows(c1.streams) then Applied(c1, FlowControlError, true) else StrictSettings(c1, ss[1..], true)
      else if st.id == SETTING_MAX_FRAME_SIZE then
        if st.val < DEFAULT_MAX_FRAME_SIZE || st.val > LARGEST_MAX_FRAME_SIZE then Applied(c, ProtocolError, changed)
        else StrictSettings(c.(peerMaxFrame := st.val), ss[1..], changed)
      else if st.id == SETTING_ENABLE_PUSH && st.val > 1 then Applied(c, ProtocolError, changed)
      else StrictSettings(c, ss[1..], changed)
  }

  /** A new initial window, with every open stream's window moved by the change. */
  function WithInitial(c: Conn, val: nat): Conn {
    c.(initSendWindow := val, streams := AdjustWindows(c.streams, val - c.initSendWindow))
  }

  /** Some value of the frame takes some open stream's window past the limit. */
  ghost predicate Overshoots(c: Conn, ss: seq<Setting>) {
    exists k: nat, id: nat :: k < |ss| && id in c.streams && Beyond(c, ss[k], id)
  }

  predicate Beyond(c: Conn, st: Setting, id: nat)
    requires id in c.streams
  {
    st.id == SETTING_INITIAL_WINDOW_SIZE && c.streams[id].sendWindow + (st.val - c.initSendWindow) > MAX_WINDOW
  }

  // ----- exactly when the code does what is required

  /** Where a stream's window goes does not depend on the values the frame set before. */
  lemma InitialBeyond(c: Conn, val: nat, st: Setting, id: nat)
    requires id in c.streams
    ensures id in WithInitial(c, val).streams && (Beyond(WithInitial(c, val), st, id) <==> Beyond(c, st, id))
  {
  }

  lemma InitialOvershoots(c: Conn, ss: seq<Setting>)
    requires ss != [] && ss[0].id == SETTING_INITIAL_WINDOW_SIZE
    ensures var d := WithInitial(c, ss[0].val);
            Overshoots(c, ss) <==> Overflows(d.streams) || Overshoots(d, ss[1..])
  {
    var d := WithInitial(c, ss[0].val);
    if Overshoots(c, ss) {
      var k: nat, id: nat :| k < |ss| && id in c.streams && Beyond(c, ss[k], id);
      InitialBeyond(c, ss[0].val, ss[k], id);
      if k == 0 {
        assert id in d.streams && d.streams[id].sendWindow > MAX_WINDOW;
      } else {
        assert k - 1 < |ss[1..]| && Beyond(d, ss[1..][k - 1], id);
      }
    }
    if Overflows(d.streams) {
      var id: nat :| id in d.streams && d.streams[id].sendWindow > MAX_WINDOW;
      assert Beyond(c, ss[0], id);
    }
    if Overshoots(d, ss[1..]) {
      var k: nat, id: nat :| k < |ss[1..]| && id in d.streams && Beyond(d, ss[1..][k], id);
      InitialBeyond(c, ss[0].val, ss[k + 1], id);
      assert Beyond(c, ss[k + 1], id);
    }
  }

  lemma SkipOvershoots(c: Conn, d: Conn, ss: seq<Setting>)
    requires ss != [] && ss[0].id != SETTING_INITIAL_WINDOW_SIZE
    requires d.streams == c.streams && d.initSendWindow == c.initSendWindow
    ensures Overshoots(c, ss) <==> Overshoots(d, ss[1..])
  {
    if Overshoots(c, ss) {
      var k: nat, id: nat :| k < |ss| && id in c.streams && Beyond(c, ss[k], id);
      assert k - 1 < |ss[1..]| && Beyond(d, ss[1..][k - 1], id);
    }
    if Overshoots(d, ss[1..]) {
      var k: nat, id: nat :| k < |ss[1..]| && id in d.streams && Beyond(d, ss[1..][k], id);
      assert Beyond(c, ss[k + 1], id);
    }
  }

  /** The code accepts settings as the section requires if and only if none of their values overshoots; what the section
      accepts, the code applies alike. */
  lemma {:induction false} AcceptsAsRequiredIff(c: Conn, ss: seq<Setting>, changed: bool)
    ensures StrictSettings(c, ss, changed).code == NoError <==>
            ApplySettings(c, ss, changed).code == NoError && !Overshoots(c, ss)
    ensures StrictSettings(c, ss, changed).code == NoError ==>
              StrictSettings(c, ss, changed) == ApplySettings(c, ss, changed)
    decreases |ss|
  {
    if ss != [] {
      hide Overflows, Overshoots, AdjustWindows;
      var st := ss[0];
      if st.id == SETTING_INITIAL_WINDOW_SIZE {
        InitialOvershoots(c, ss);
        AcceptsAsRequiredIff(WithInitial(c, st.val), ss[1..], true);
      } else if st.id == SETTING_MAX_FRAME_SIZE {
        if DEFAULT_MAX_FRAME_SIZE <= st.val <= LARGEST_MAX_FRAME_SIZE {
          SkipOvershoots(c, c.(peerMaxFrame := st.val), ss);
          AcceptsAsRequiredIff(c.(peerMaxFrame := st.val), ss[1..], changed);
        }
      } else {
        SkipOvershoots(c, c, ss);
        AcceptsAsRequiredIff(c, ss[1..], changed);
      }
    } else {
      assert !Overshoots(c, ss);
    }
  }

  /** Whether the code accepts settings does not depend on any window. */
  lemma {:induction false} AcceptsBlindly(c: Conn, d: Conn, ss: seq<Setting>, x: bool, y: bool)
    ensures ApplySettings(c, ss, x).code == ApplySettings(d, ss, y).code
    decreases |ss|
  {
    if ss != [] {
      hide AdjustWindows;
      var st := ss[0];
      if st.id == SETTING_INITIAL_WINDOW_SIZE {
        AcceptsBlindly(WithInitial(c, st.val), WithInitial(d, st.val), ss[1..], true, true);
      } else if st.id == SETTING_MAX_FRAME_SIZE {
        if DEFAULT_MAX_FRAME_SIZE <= st.val <= LARGEST_MAX_FRAME_SIZE {
          AcceptsBlindly(c.(peerMaxFrame := st.val), d.(peerMaxFrame := st.val), ss[1..], x, y);
        }
      } else {
        AcceptsBlindly(c, d, ss[1..], x, y);
      }
    }
  }

  /** Where an accepted SETTINGS frame leaves the window of an open stream. */
  lemma AdjustedBeyondIff(c: Conn, ss: seq<Setting>, id: nat)
    requires c.initSendWindow >= 0 && ApplySettings(c, ss, false).code == NoError && id in c.streams
    ensures id in ApplySettings(c, ss, false).c.streams
    ensures ApplySettings(c, ss, false).c.streams[id].sendWindow > MAX_WINDOW <==>
            c.streams[id].sendWindow + (SettledInit(c.initSendWindow, ss) - c.initSendWindow) > MAX_WINDOW
  {
    hide ApplySettings, SettledInit, SettledMax;
    ApplySettingsEffect(c, ss, false);
  }

  // ----- over runs

  /** The peer can tell: the credit it gave a stream, less the DATA it got, and the new initial window. */
  ghost predicate Overcredits(w: World, ss: seq<Setting>) {
    exists k: nat, id: nat ::
      && k < |ss| && id in w.c.streams
      && ss[k].id == SETTING_INITIAL_WINDOW_SIZE && Owed(w.log, id) + ss[k].val > MAX_WINDOW
  }

  function Owed(log: Log, id: nat): int {
    TallyOf(log, id).credit - |TallyOf(log, id).out|
  }

  lemma WindowIsOwed(w: World, id: nat)
    requires Inv(w) == true && id in w.c.streams
    ensures w.c.streams[id].sendWindow == w.c.initSendWindow + Owed(w.log, id)
  {
    hide Inv, TallyOf, TotalsOf, Safe, ResponseOk, RequestOk;
    StreamOf(w, id);
  }

  lemma OvershootsByCredit(w: World, ss: seq<Setting>)
    requires Inv(w) == true
    ensures Overshoots(w.c, ss) <==> Overcredits(w, ss)
  {
    hide Inv, Owed;
    forall id: nat | id in w.c.streams ensures w.c.streams[id].sendWindow == w.c.initSendWindow + Owed(w.log, id) {
      WindowIsOwed(w, id);
    }
    if Overshoots(w.c, ss) {
      var k: nat, id: nat :| k < |ss| && id in w.c.streams && Beyond(w.c, ss[k], id);
      assert Owed(w.log, id) + ss[k].val > MAX_WINDOW;
    }
    if Overcredits(w, ss) {
      var k: nat, id: nat :| && k < |ss| && id in w.c.streams
                             && ss[k].id == SETTING_INITIAL_WINDOW_SIZE && Owed(w.log, id) + ss[k].val > MAX_WINDOW;
      assert Beyond(w.c, ss[k], id);
    }
  }

  /** In every run, settings are accepted as section 6.9.2 requires if and only if the code accepts them and the peer
      did not overcredit an open stream. */
  lemma RequiredByCreditIff(calls: seq<Call>, ss: seq<Setting>)
    requires !Run(NewWorld(), calls).close
    ensures var w := Run(NewWorld(), calls).w;
            StrictSettings(w.c, ss, false).code == NoError <==>
            ApplySettings(w.c, ss, false).code == NoError && !Overcredits(w, ss)
  {
    hide Inv, Safe, Run, NewWorld, Overshoots, Overcredits, StrictSettings, ApplySettings;
    RunGood(calls);
    var w := Run(NewWorld(), calls).w;
    OvershootsByCredit(w, ss);
    AcceptsAsRequiredIff(w.c, ss, false);
  }
}
