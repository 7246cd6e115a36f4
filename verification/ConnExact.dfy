// When every response that ends is complete: exactly when no call cuts one short (http2/conn.v).
module ConnExact {
  import opened Bytes
  import opened Frames
  import opened ConnModel
  import opened ConnShapes
  import opened ConnLog
  import opened ConnInv
  import opened ConnBlocks
  import opened ConnRuns
  import opened ConnEnding
  import opened ConnCuts
  import opened ConnIntake
  import opened ConnSpent
  import P = Probing

  /** One response per stream, in order, whatever is parked. */
  ghost predicate OrderedRun(w: World, calls: seq<Call>)
    decreases |calls|
  {
    calls != [] ==>
      && Ordered(w, calls[0])
      && (!Perform(w, calls[0]).close ==> OrderedRun(Perform(w, calls[0]).w, calls[1..]))
  }

  /** A stream that was cut short is closed for good. */
  lemma CutSpent(w: World, call: Call, x: nat)
    requires Inv(w) == true && EndsOk(w) == true && Ordered(w, call) && Cuts(w, call, x)
    ensures !Perform(w, call).close && Spent(Perform(w, call).w.c, x)
  {
    hide Inv, EndsOk, EndsOnce, EndsBut, TallyOf, EndingOf, TotalsOf, P.Remove;
    match call
    case Headers(id, block, _) =>
      IdFacts(w, id);
      WriteBlockShape(Note(w, WroteHeaders(id, true)), id, block, true);
      hide WriteBlock;
    case Body(id, _, _) => IdFacts(w, id);
    case _ =>
  }

  lemma FrozenTruncated(v: World, w: World, id: nat)
    requires Truncated(v, id) && Frozen(v.log, w.log, id)
    ensures Truncated(w, id)
  {
    hide TallyOf, EndingOf;
  }

  lemma EndedWhole(w: World, close: bool, id: nat)
    requires Ended(w, close)
    ensures !Truncated(w, id)
  {
    hide TallyOf, EndingOf, EndsOnce;
    if !close {
      LogEndsOf(w);
    }
  }

  lemma {:induction false} RunExact(w: World, calls: seq<Call>)
    requires Inv(w) == true && EndsOk(w) == true && IntakeOk(w) == true && OrderedRun(w, calls)
    ensures !PoliteRun(w, calls) ==> exists id: nat :: Truncated(Run(w, calls).w, id)
    decreases |calls|
  {
    hide Inv, EndsOk, IntakeOk, Safe, LogEnds, Perform, Ordered, Cuts, Truncated, Spent, Frozen;
    if calls != [] && !PoliteRun(w, calls) {
      var v := Perform(w, calls[0]).w;
      PerformGood(w, calls[0]);
      PerformIntake(w, calls[0]);
      if x: nat :| Cuts(w, calls[0], x) {
        CutSpent(w, calls[0], x);
        CallTruncatesIff(w, calls[0], x);
        RunSpent(v, calls[1..], x);
        FrozenTruncated(v, Run(v, calls[1..]).w, x);
        assert Truncated(Run(w, calls).w, x);
      } else {
        PerformEnds(w, calls[0]);
        RunExact(v, calls[1..]);
        assert Run(w, calls) == Run(v, calls[1..]);
      }
    }
  }

  /** In a run that writes one response per stream in order, every response that ended is complete if and only if no
      call cut one short. */
  lemma CompleteIff(calls: seq<Call>)
    requires OrderedRun(NewWorld(), calls)
    ensures (forall id: nat :: !Truncated(Run(NewWorld(), calls).w, id)) <==> PoliteRun(NewWorld(), calls)
  {
    NewWorldInv();
    NewWorldEnds();
    NewWorldIntake();
    hide Inv, EndsOk, IntakeOk, LogEnds, Run, NewWorld, Truncated, PoliteRun, OrderedRun;
    RunExact(NewWorld(), calls);
    if PoliteRun(NewWorld(), calls) {
      RunFromEnds(NewWorld(), calls);
      forall id: nat ensures !Truncated(Run(NewWorld(), calls).w, id) {
        EndedWhole(Run(NewWorld(), calls).w, Run(NewWorld(), calls).close, id);
      }
    }
  }
}
