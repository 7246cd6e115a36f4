// tls/vanilla_tls.c: the receive side of a TLS session. Under edge-triggered readiness a byte that is neither read
// nor announced by an edge still to come is lost, so the read-ahead and its `readable` flag must strand none.
module ReadAhead {
  import opened Bytes

  const VTLS_READAHEAD := 4096

  // ----- the socket

  /** What has arrived and is not read; whether the peer has closed, or the connection broke; and whether an edge
      is still to be reported. */
  datatype Socket = Socket(queue: seq<byte>, fin: bool, broken: bool, edge: bool)

  datatype Outcome = Got(bs: seq<byte>) | Eof | Again | Failed

  /** recv(2) on a non-blocking stream socket: everything queued, up to the length asked for. Eof stands for the
      result 0, which an ask of no octets also gets while some are queued. */
  function Recv(k: Socket, want: nat): (Socket, Outcome) {
    if k.broken then (k, Failed)
    else if k.queue != [] && want == 0 then (k, Eof)
    else if k.queue != [] then
      var n := Min(want, |k.queue|);
      (k.(queue := k.queue[n..]), Got(k.queue[..n]))
    else if k.fin then (k, Eof)
    else (k, Again)
  }

  // ----- the session

  datatype Closed = Open | AtEof | OnError

  /** `ra` is the unread part of the read-ahead, `ra[ra_off..ra_len]`. */
  datatype Session = Session(readable: bool, closed: Closed, bioWant: bool, readahead: bool, ra: seq<byte>)

  datatype Answer = Data(bs: seq<byte>) | WantRead | EndOfFile | RecvFailed

  /** The outcome tells that the socket was drained when it was asked for want octets. */
  predicate Drained(o: Outcome, want: nat) {
    o.Again? || (o.Got? && |o.bs| < want)
  }

  /** The bookkeeping of `vtls_recv` after the system call. */
  function Settle(s: Session, o: Outcome, want: nat): Session {
    match o
    case Again => s.(readable := false, bioWant := true)
    case Failed => s.(closed := OnError)
    case Eof => s.(closed := AtEof)
    case Got(bs) => if |bs| < want then s.(readable := false) else s
  }

  function Reported(o: Outcome): Answer {
    match o
    case Again => WantRead
    case Failed => RecvFailed
    case Eof => EndOfFile
    case Got(bs) => Data(bs)
  }

  /** The socket is asked only with nothing read ahead, nothing latched and the flag up. */
  predicate Asks(s: Session) {
    s.ra == [] && s.closed.Open? && s.readable
  }

  /** How much a recv asks for: exactly the ask in the handshake and for a large one, else the whole read-ahead. */
  function Wanted(s: Session, len: nat): nat {
    if !s.readahead || len >= VTLS_READAHEAD then len else VTLS_READAHEAD
  }

  /** `vtls_bio_recv` when the socket is not asked. */
  function Serve(s: Session, len: nat): (Session, Answer) {
    if s.ra != [] then
      var n := Min(len, |s.ra|);
      (s.(ra := s.ra[n..]), Data(s.ra[..n]))
    else
      match s.closed
      case AtEof => (s, EndOfFile)
      case OnError => (s, RecvFailed)
      case Open => (s.(bioWant := true), WantRead)
  }

  /** `ra_fill` after the system call. */
  function Filled(s: Session, o: Outcome): Session {
    Settle(s, o, VTLS_READAHEAD).(ra := if o.Got? then o.bs else [])
  }

  /** `vtls_bio_recv` after the system call. */
  function Finish(s: Session, o: Outcome, len: nat): (Session, Answer) {
    if !s.readahead || len >= VTLS_READAHEAD then (Settle(s, o, len), Reported(o))
    else if o.Got? then Serve(Filled(s, o), len)
    else (Filled(s, o), Reported(o))
  }

  // ----- runs

  /** What the worker is doing: nothing, or between a system call and its bookkeeping. */
  datatype Doing = Idle | Reading(o: Outcome, len: nat) | Filling(o: Outcome)

  /** Octets arrive, the peer closes or the connection breaks at any time; the worker reports an edge, starts a
      receive callback or a refill, and finishes it. */
  datatype Step = Arrive(bs: seq<byte>) | Hangup | Break | Edge | HandshakeOver | Ask(len: nat) | Refill | Done

  /** `drained`: since the last mark, a recv has seen the socket drained. */
  datatype System = System(
    s: Session, k: Socket, doing: Doing, arrived: seq<byte>, delivered: seq<byte>, drained: bool,
    answer: Option<Answer>)

  function Answered(x: System, s: Session, a: Answer): System {
    x.(s := s, doing := Idle, answer := Some(a), delivered := if a.Data? then x.delivered + a.bs else x.delivered)
  }

  function Asked(x: System, want: nat): (System, Outcome) {
    var (k, o) := Recv(x.k, want);
    (x.(k := k, drained := x.drained || Drained(o, want)), o)
  }

  function Perform(x0: System, step: Step): System {
    var x := x0.(answer := None);
    match step
    case Arrive(bs) =>
      if x.k.fin || bs == [] then x
      else x.(k := x.k.(queue := x.k.queue + bs, edge := true), arrived := x.arrived + bs)
    case Hangup => x.(k := x.k.(fin := true, edge := true))
    case Break => x.(k := x.k.(broken := true, edge := true))
    case Edge =>
      if !x.k.edge || !x.doing.Idle? then x
      else x.(k := x.k.(edge := false), s := x.s.(readable := true), drained := false)
    case HandshakeOver => if x.doing.Idle? then x.(s := x.s.(readahead := true)) else x
    case Ask(len) =>
      if !x.doing.Idle? || len == 0 then x
      else if !Asks(x.s) then
        var (s, a) := Serve(x.s, len);
        Answered(x, s, a)
      else
        var (y, o) := Asked(x, Wanted(x.s, len));
        y.(doing := Reading(o, len))
    case Refill =>
      if !x.doing.Idle? || !Asks(x.s) || !x.s.readahead then x
      else
        var (y, o) := Asked(x, VTLS_READAHEAD);
        y.(doing := Filling(o))
    case Done =>
      match x.doing
      case Idle => x
      case Reading(o, len) =>
        var (s, a) := Finish(x.s, o, len);
        Answered(x, s, a)
      case Filling(o) => x.(s := Filled(x.s, o), doing := Idle)
  }

  /** A new session: the flag is up, because q may have arrived with the connect. */
  function Fresh(q: seq<byte>): System {
    System(Session(true, Open, false, false, []), Socket(q, false, false, false), Idle, q, [], false, None)
  }

  function Run(x: System, steps: seq<Step>): System
    decreases |steps|
  {
    if steps == [] then x else Run(Perform(x, steps[0]), steps[1..])
  }

  // ----- what every run keeps

  function Pending(x: System): Option<(Outcome, nat)> {
    match x.doing
    case Idle => None
    case Reading(o, len) => Some((o, Wanted(x.s, len)))
    case Filling(o) => Some((o, VTLS_READAHEAD))
  }

  /** Octets a recv has returned and the bookkeeping has not yet passed on. */
  function InFlight(x: System): seq<byte> {
    match Pending(x)
    case Some((Got(bs), _)) => bs
    case _ => []
  }

  /** The flag is up and stays up. */
  ghost predicate StaysReadable(x: System) {
    x.s.readable && (Pending(x).None? || !Drained(Pending(x).value.0, Pending(x).value.1))
  }

  ghost predicate Conserved(x: System) {
    x.delivered + InFlight(x) + x.s.ra + x.k.queue == x.arrived
  }

  /** What is queued will be asked for: the flag stays up, or an edge is still to come. */
  ghost predicate Awake(x: System) {
    x.k.queue != [] && x.s.closed.Open? ==> StaysReadable(x) || x.k.edge
  }

  ghost predicate MarkOk(x: System) {
    && (!StaysReadable(x) ==> x.drained)
    && (Pending(x).Some? ==> Asks(x.s) && Pending(x).value.1 > 0)
    && (x.doing.Filling? ==> x.s.readahead)
    && ((x.s.closed.AtEof? || (Pending(x).Some? && Pending(x).value.0.Eof?)) ==> x.k.queue == [] && x.k.fin)
    && (Pending(x).Some? && Pending(x).value.0.Got? ==> 0 < |Pending(x).value.0.bs| <= Pending(x).value.1)
  }

  ghost predicate Ok(x: System) {
    Conserved(x) && Awake(x) && MarkOk(x)
  }

  lemma ArriveOk(x: System, bs: seq<byte>)
    requires Ok(x) == true
    ensures Ok(Perform(x, Arrive(bs))) == true
  {
    assert x.delivered + InFlight(x) + x.s.ra + (x.k.queue + bs) == x.delivered + InFlight(x) + x.s.ra + x.k.queue + bs;
  }

  lemma EdgeOk(x: System, step: Step)
    requires Ok(x) == true && (step.Hangup? || step.Break? || step.Edge? || step.HandshakeOver?)
    ensures Ok(Perform(x, step)) == true
  {
  }

  lemma RecvSplits(k: Socket, want: nat)
    requires want > 0
    ensures var (k1, o) := Recv(k, want);
            && k1 == k.(queue := k1.queue)
            && (if o.Got? then o.bs + k1.queue == k.queue && 0 < |o.bs| <= want else k1 == k)
            && (Drained(o, want) ==> k1.queue == [])
            && (o.Eof? ==> k.queue == [] && k.fin)
            && (o.Failed? ==> k.broken)
  {
  }

  /** The system call of a callback or a refill. */
  lemma AskedConserved(x: System, want: nat, doing: Doing)
    requires Conserved(x) && x.doing.Idle? && x.s.ra == [] && want > 0
    requires var (y, o) := Asked(x, want); Pending(y.(doing := doing)) == Some((o, want))
    ensures Conserved(Asked(x, want).0.(doing := doing))
  {
    RecvSplits(x.k, want);
    hide Recv;
  }

  lemma AskedMarks(x: System, want: nat, doing: Doing)
    requires Awake(x) && MarkOk(x) && x.doing.Idle? && Asks(x.s) && want > 0
    requires var (y, o) := Asked(x, want); Pending(y.(doing := doing)) == Some((o, want))
    requires doing.Filling? ==> x.s.readahead
    ensures Awake(Asked(x, want).0.(doing := doing)) && MarkOk(Asked(x, want).0.(doing := doing))
  {
    RecvSplits(x.k, want);
    hide Recv;
  }

  lemma ServedConserved(x: System, len: nat)
    requires Conserved(x) && x.doing.Idle?
    ensures Conserved(Answered(x, Serve(x.s, len).0, Serve(x.s, len).1))
  {
    if x.s.ra != [] {
      var n := Min(len, |x.s.ra|);
      var a, b := x.s.ra[..n], x.s.ra[n..];
      assert x.s.ra == a + b;
      assert x.delivered + [] == x.delivered && (x.delivered + a) + [] == x.delivered + a;
      Assoc(x.delivered, a, b);
    }
  }

  lemma ServedOk(x: System, len: nat)
    requires Ok(x) == true && x.doing.Idle? && !Asks(x.s)
    ensures Ok(Answered(x, Serve(x.s, len).0, Serve(x.s, len).1)) == true
  {
    ServedConserved(x, len);
    hide Conserved;
  }

  lemma Unanswered(x: System, a: Option<Answer>)
    requires Ok(x) == true
    ensures Ok(x.(answer := a)) == true
  {
  }

  lemma AskOk(x0: System, len: nat)
    requires Ok(x0) == true
    ensures Ok(Perform(x0, Ask(len))) == true
  {
    Unanswered(x0, None);
    var x := x0.(answer := None);
    if x.doing.Idle? && len > 0 {
      if Asks(x.s) {
        var doing := Reading(Asked(x, Wanted(x.s, len)).1, len);
        AskedConserved(x, Wanted(x.s, len), doing);
        AskedMarks(x, Wanted(x.s, len), doing);
        hide Conserved, Awake, MarkOk, Recv;
      } else {
        ServedOk(x, len);
        hide Conserved, Awake, MarkOk, Serve;
      }
    }
  }

  lemma RefillOk(x0: System)
    requires Ok(x0) == true
    ensures Ok(Perform(x0, Refill)) == true
  {
    Unanswered(x0, None);
    var x := x0.(answer := None);
    if x.doing.Idle? && Asks(x.s) && x.s.readahead {
      var doing := Filling(Asked(x, VTLS_READAHEAD).1);
      AskedConserved(x, VTLS_READAHEAD, doing);
      AskedMarks(x, VTLS_READAHEAD, doing);
      hide Conserved, Awake, MarkOk, Recv;
    }
  }

  /** The bookkeeping after a system call, its octets put into the read-ahead. */
  lemma FilledOk(x: System, o: Outcome)
    requires Ok(x) == true && Pending(x) == Some((o, VTLS_READAHEAD))
    ensures Ok(x.(s := Filled(x.s, o), doing := Idle)) == true
  {
  }

  /** The same, its octets handed to the library. */
  lemma SettledOk(x: System, o: Outcome, want: nat)
    requires Ok(x) == true && Pending(x) == Some((o, want))
    ensures Ok(Answered(x, Settle(x.s, o, want), Reported(o))) == true
  {
  }

  lemma DoneOk(x0: System)
    requires Ok(x0) == true
    ensures Ok(Perform(x0, Done)) == true
  {
    Unanswered(x0, None);
    var x := x0.(answer := None);
    match x.doing
    case Idle =>
    case Filling(o) =>
      FilledOk(x, o);
    case Reading(o, len) =>
      if Wanted(x.s, len) == len && (!x.s.readahead || len >= VTLS_READAHEAD) {
        SettledOk(x, o, len);
      } else {
        FilledOk(x, o);
        var y := x.(s := Filled(x.s, o), doing := Idle);
        if o.Got? {
          FilledServes(x, o);
          ServedOk(y, len);
        } else {
          Unanswered(y, Some(Reported(o)));
        }
      }
      hide Conserved, Awake, MarkOk, Serve;
  }

  lemma FilledServes(x: System, o: Outcome)
    requires MarkOk(x) && Pending(x) == Some((o, VTLS_READAHEAD)) && o.Got?
    ensures !Asks(Filled(x.s, o))
  {
  }

  lemma PerformOk(x: System, step: Step)
    requires Ok(x) == true
    ensures Ok(Perform(x, step)) == true
  {
    match step
    case Arrive(bs) => ArriveOk(x, bs);
    case Ask(len) => AskOk(x, len);
    case Refill => RefillOk(x);
    case Done => DoneOk(x);
    case _ => EdgeOk(x, step);
  }

  lemma {:induction false} RunOk(x: System, steps: seq<Step>)
    requires Ok(x) == true
    ensures Ok(Run(x, steps)) == true
    decreases |steps|
  {
    if steps != [] {
      PerformOk(x, steps[0]);
      hide Ok, Perform;
      RunOk(Perform(x, steps[0]), steps[1..]);
    }
  }

  // ----- the theorems

  /** Octets are neither lost, duplicated nor reordered, and what is queued will be asked for. */
  lemma NothingStranded(q: seq<byte>, steps: seq<Step>)
    ensures var x := Run(Fresh(q), steps);
            && x.delivered + InFlight(x) + x.s.ra + x.k.queue == x.arrived
            && (x.k.queue != [] && x.s.closed.Open? ==> StaysReadable(x) || x.k.edge)
  {
    assert [] + [] + [] + q == q;
    RunOk(Fresh(q), steps);
  }

  lemma WantReadShape(x: System, step: Step)
    requires Ok(x) == true && Perform(x, step).answer == Some(WantRead)
    ensures var y := Perform(x, step);
            y.s.ra == [] && !y.s.readable && y.s.closed.Open? && y.doing.Idle? && y.s.bioWant
  {
  }

  /** WANT_READ is answered only with the read-ahead empty, the socket seen drained since the last mark, and
      anything that has arrived meanwhile announced by an edge still to come. */
  lemma WantReadMeansDrained(q: seq<byte>, steps: seq<Step>, step: Step)
    requires Perform(Run(Fresh(q), steps), step).answer == Some(WantRead)
    ensures var y := Perform(Run(Fresh(q), steps), step);
            && y.s.ra == [] && y.drained && y.s.bioWant
            && y.delivered + y.k.queue == y.arrived
            && (y.k.queue != [] ==> y.k.edge)
  {
    assert [] + [] + [] + q == q;
    var x := Run(Fresh(q), steps);
    RunOk(Fresh(q), steps);
    PerformOk(x, step);
    WantReadShape(x, step);
    hide Run, Perform;
  }

  lemma EofShape(x: System, step: Step)
    requires Ok(x) == true && Perform(x, step).answer == Some(EndOfFile)
    ensures var y := Perform(x, step);
            y.s.ra == [] && y.s.closed.AtEof? && y.doing.Idle?
  {
  }

  /** The end of the stream never overtakes an octet. */
  lemma EofMeansAll(q: seq<byte>, steps: seq<Step>, step: Step)
    requires Perform(Run(Fresh(q), steps), step).answer == Some(EndOfFile)
    ensures var y := Perform(Run(Fresh(q), steps), step);
            y.delivered == y.arrived && y.k.fin
  {
    assert [] + [] + [] + q == q;
    var x := Run(Fresh(q), steps);
    RunOk(Fresh(q), steps);
    PerformOk(x, step);
    EofShape(x, step);
    hide Run, Perform;
    var y := Perform(x, step);
    assert y.delivered + [] + [] + [] == y.delivered;
  }

  /** What is queued on a sound connection is read by the next ask, once the edge it raised has been reported. */
  lemma QueuedIsRead(q: seq<byte>, steps: seq<Step>, len: nat)
    requires var x := Run(Fresh(q), steps);
             x.doing.Idle? && x.s.ra == [] && x.k.queue != [] && x.s.closed.Open? && !x.k.broken && len > 0
    ensures var x := Run(Fresh(q), steps);
            var x1 := if x.s.readable then x else Perform(x, Edge);
            var y := Perform(Perform(x1, Ask(len)), Done);
            && y.answer.Some? && y.answer.value.Data? && 0 < |y.answer.value.bs| <= len
            && y.answer.value.bs <= x.k.queue
  {
    assert [] + [] + [] + q == q;
    var x := Run(Fresh(q), steps);
    RunOk(Fresh(q), steps);
    hide Run;
    var x1 := if x.s.readable then x else Perform(x, Edge);
    assert Asks(x1.s) && x1.k.queue == x.k.queue;
    ReadsNow(x1, len);
  }

  lemma ReadsNow(x: System, len: nat)
    requires x.doing.Idle? && Asks(x.s) && x.k.queue != [] && !x.k.broken && len > 0
    ensures var y := Perform(Perform(x, Ask(len)), Done);
            && y.answer.Some? && y.answer.value.Data? && 0 < |y.answer.value.bs| <= len
            && y.answer.value.bs <= x.k.queue
  {
    var want := Wanted(x.s, len);
    var n := Min(want, |x.k.queue|);
    var x1 := Perform(x, Ask(len));
    assert x1.doing == Reading(Got(x.k.queue[..n]), len) && x1.s == x.s;
  }

  /** The callback returned 0, which the library takes for the end of the stream. */
  predicate ReturnsZero(a: Answer) {
    a.EndOfFile? || (a.Data? && a.bs == [])
  }

  /** While octets are queued, an ask that reaches the socket returns 0 exactly when it is an ask of no octets, and
      in the handshake that latches the end of the stream. */
  lemma ZeroAskIff(s: Session, k: Socket, len: nat)
    requires Asks(s) && k.queue != [] && !k.broken
    ensures var (s1, a) := Finish(s, Recv(k, Wanted(s, len)).1, len);
            && (ReturnsZero(a) <==> len == 0)
            && (s1.closed.AtEof? <==> len == 0 && !s.readahead)
  {
    var n := Min(Wanted(s, len), |k.queue|);
    assert Wanted(s, len) > 0 ==> Recv(k, Wanted(s, len)).1 == Got(k.queue[..n]) && n > 0;
  }

  // ----- the session as the source holds it

  class VtlsSession {
    var readable: bool
    var closed: Closed
    var bioWant: bool
    var readahead: bool
    const ra: array<byte>
    var raOff: nat
    var raLen: nat

    ghost predicate Valid()
      reads this
    {
      ra.Length == VTLS_READAHEAD && raOff <= raLen <= VTLS_READAHEAD
    }

    ghost function Value(): Session
      reads this, ra
      requires Valid()
    {
      Session(readable, closed, bioWant, readahead, ra[raOff..raLen])
    }

    /** `vtls_session_new` */
    constructor ()
      ensures Valid() && Value() == Fresh([]).s && fresh(ra)
    {
      readable, closed, bioWant, readahead, raOff, raLen := true, Open, false, false, 0, 0;
      ra := new byte[VTLS_READAHEAD](_ => 0);
    }

    /** `vtls_mark_readable` */
    method MarkReadable()
      requires Valid()
      modifies this`readable
      ensures Valid() && Value() == old(Value()).(readable := true)
    {
      readable := true;
    }

    /** `vtls_recv`: one recv on the socket k, with the session's bookkeeping. */
    method VtlsRecv(k: Socket, want: nat) returns (k1: Socket, o: Outcome)
      requires Valid()
      modifies this`readable, this`bioWant, this`closed
      ensures Valid() && (k1, o) == Recv(k, want) && Value() == Settle(old(Value()), o, want)
    {
      k1, o := Recv(k, want).0, Recv(k, want).1;
      match o
      case Again =>
        readable := false;
        bioWant := true;
      case Failed => closed := OnError;
      case Eof => closed := AtEof;
      case Got(bs) =>
        if |bs| < want {
          readable := false;
        }
    }

    /** `ra_fill`: refill the empty read-ahead with one recv. */
    method RaFill(k: Socket) returns (k1: Socket, o: Outcome)
      requires Valid() && raOff == raLen
      modifies this, ra
      ensures Valid() && (k1, o) == Recv(k, VTLS_READAHEAD) && Value() == Filled(old(Value()), o)
    {
      k1, o := VtlsRecv(k, VTLS_READAHEAD);
      raOff, raLen := 0, 0;
      if o.Got? {
        assert |o.bs| <= VTLS_READAHEAD;
        forall i | 0 <= i < |o.bs| {
          ra[i] := o.bs[i];
        }
        raLen := |o.bs|;
        assert ra[0..raLen] == o.bs;
      }
    }

    method CopyOut(len: nat) returns (a: Answer)
      requires Valid() && raOff < raLen
      modifies this`raOff
      ensures Valid() && (Value(), a) == Serve(old(Value()), len)
    {
      var n := raLen - raOff;
      if n > len {
        n := len;
      }
      assert ra[raOff..raLen][..n] == ra[raOff..raOff + n] && ra[raOff..raLen][n..] == ra[raOff + n..raLen];
      a := Data(ra[raOff..raOff + n]);
      raOff := raOff + n;
    }

    /** `vtls_bio_recv` */
    method BioRecv(k: Socket, len: nat) returns (k1: Socket, a: Answer)
      requires Valid()
      modifies this, ra
      ensures Valid()
      ensures if Asks(old(Value())) then
                var (k2, o) := Recv(k, Wanted(old(Value()), len));
                k1 == k2 && (Value(), a) == Finish(old(Value()), o, len)
              else k1 == k && (Value(), a) == Serve(old(Value()), len)
    {
      k1 := k;
      if raOff >= raLen {
        if !closed.Open? {
          a := if closed.AtEof? then EndOfFile else RecvFailed;
          return;
        }
        if !readable {
          bioWant := true;
          return k, WantRead;
        }
        var o;
        if !readahead || len >= VTLS_READAHEAD {
          k1, o := VtlsRecv(k, len);
          return k1, Reported(o);
        }
        k1, o := RaFill(k);
        if !o.Got? {
          return k1, Reported(o);
        }
      }
      a := CopyOut(len);
    }
  }
}
