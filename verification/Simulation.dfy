/**
 Machine and transport objects simulate the two-endpoint model: each application
 call over a memory transport, wrapped or not, is one step of `Systems.Step` in the
 weather that the call has met.
 */
module Simulation {
  import opened Basics
  import opened Conversations
  import opened Traces
  import opened Projection
  import opened Machines
  import opened Sessions
  import opened Systems
  import opened Codecs
  import opened Transports

  // ----- What the objects stand for

  /** The two transports of a memory pair and the two channels between them. */
  datatype Wire = Wire(left: MemoryTransport, right: MemoryTransport, there: Channel, back: Channel)
  {
    function End(side: Side): MemoryTransport { if side == Left then left else right }
    function Outbound(side: Side): Channel { if side == Left then there else back }
  }

  /** The documents in a channel decode to the envelopes of a modelled queue. */
  ghost predicate Carries(codec: EnvelopeCodec, items: seq<Document>, q: seq<WireEnvelope>, size: Document -> nat) {
    |items| == |q| && forall i :: 0 <= i < |q| ==> Decode(codec, items[i], size) == Ok(q[i])
  }

  /** A side holds its transport exactly while it is open, and can read what is queued for it. */
  ghost predicate EndOk(sys: System, wire: Wire, side: Side, size: Document -> nat)
    reads wire.left, wire.right, wire.there, wire.back
  {
    var t, out, into := wire.End(side), wire.Outbound(side), wire.Outbound(side.Other());
    var open := sys.At(side).open;
    && t.outbound == (if open then out else null) && t.inbound == (if open then into else null)
    && out.senderAlive == open && into.receiverAlive == open
    && (open ==> Carries(t.codec, into.items, sys.Inbox(side), size))
  }

  /** The objects are in the configuration that `sys` describes. */
  ghost predicate Models(sys: System, wire: Wire, size: Document -> nat)
    reads wire.left, wire.right, wire.there, wire.back
  {
    && wire.left != wire.right && wire.there != wire.back && wire.left.codec == wire.right.codec
    && EndOk(sys, wire, Left, size) && EndOk(sys, wire, Right, size)
  }

  /** What the wire makes of an envelope; `Codecs.WireDeliversNormal` shows it of both codecs. */
  ghost predicate Delivers(codec: EnvelopeCodec, e: WireEnvelope, size: Document -> nat) {
    match Encode(codec, e, size)
    case Ok(d) => Decode(codec, d, size) == Ok(NormalEnvelope(e))
    case Err(error) => error == EnvelopeTooLarge
  }

  /** A fresh memory pair is the wire of every system with both ends open and nothing in flight. */
  method FreshWire(codec: EnvelopeCodec, ghost size: Document -> nat)
    returns (client: MemoryTransport, server: MemoryTransport, ghost wire: Wire)
    ensures wire.left == client && wire.right == server && client.codec == codec
    ensures fresh(client) && fresh(server) && fresh(wire.there) && fresh(wire.back)
    ensures forall sys: System :: sys.left.open && sys.right.open && sys.toLeft == [] && sys.toRight == [] ==>
                                    Models(sys, wire, size)
  {
    client, server := MemoryPair(codec);
    wire := Wire(client, server, client.outbound, server.outbound);
  }

  // ----- The answers of the transports

  /** The weather of a send over a bare transport: nothing is met but the size limit. */
  ghost function SizeWeather(codec: EnvelopeCodec, e: Option<WireEnvelope>, size: Document -> nat): Weather {
    if e.Some? && Encode(codec, e.value, size).Err? then Oversize else Clear(None)
  }

  /** The weather that a wrapper's verdict amounts to. */
  ghost function WeatherOf(plan: FaultPlan, verdict: Verdict, passed: Weather): Weather {
    match verdict
    case Primary => Inject(plan.failure)
    case Renamed(failure) => Clear(Some(failure))
    case Passed => passed
  }

  lemma SendsAnswerAsModelled(sys: System, wire: Wire, side: Side, e: WireEnvelope, size: Document -> nat)
    requires Models(sys, wire, size) && Delivers(wire.left.codec, e, size)
    ensures wire.End(side).Valid()
    ensures wire.End(side).SendAnswer(e, size) ==
            SendRefusal(sys, side, SizeWeather(wire.left.codec, Some(e), size))
  {
  }

  lemma ReceivesAnswerAsModelled(sys: System, wire: Wire, side: Side, size: Document -> nat)
    requires Models(sys, wire, size)
    ensures wire.End(side).Valid()
    ensures wire.End(side).ReceiveAnswer(size) ==
            match ReceiveReply(sys, side, Clear(None))
            case None => Blocked
            case Some(reply) => Answer(reply)
  {
    var q, items := sys.Inbox(side), wire.Outbound(side.Other()).items;
    if sys.At(side).open && q != [] { assert Decode(wire.left.codec, items[0], size) == Ok(q[0]); }
  }

  /** Of the error of a send only its failure matters to a call that goes on. */
  predicate Alike(a: Option<RuntimeError>, b: Option<RuntimeError>) {
    (a.Some? <==> b.Some?) && (a.Some? ==> a.value.TransportFailure() == b.value.TransportFailure())
  }

  lemma AlikeErrors(m: Machine, id: string, trace: seq<Frame>, a: RuntimeError, b: RuntimeError)
    requires Find(m.endpoint.states, id).Some? && a.TransportFailure() == b.TransportFailure()
    ensures RecordFault(m, id, trace, a).Ok? <==> RecordFault(m, id, trace, b).Ok?
    ensures RecordFault(m, id, trace, a).Ok? ==> RecordFault(m, id, trace, a) == RecordFault(m, id, trace, b)
  {
  }

  // ----- Calls over the objects

  /** Dropping a transport closes its end. */
  method DropEnd(t: MemoryTransport, ghost sys: System, ghost side: Side, ghost wire: Wire, ghost size: Document -> nat)
    returns (ghost next: System)
    requires Models(sys, wire, size) && t == wire.End(side)
    modifies t, wire.there, wire.back
    ensures Step(sys, Drop(side)) == Some(next) && Models(next, wire, size)
    ensures next == sys.With(side, sys.At(side).(open := false))
  {
    t.Abort();
    next := sys.With(side, sys.At(side).(open := false));
  }

  /** The weather of a send through a wrapper. */
  ghost function SendWeather(f: FaultInjectingTransport, sys: System, side: Side, e: Option<WireEnvelope>, size: Document -> nat,
                             after: Counts, fired: bool): Weather
  {
    var bare := SizeWeather(f.inner.codec, e, size);
    if e.None? then bare
    else WeatherOf(f.plan, Ruling(f.plan, f.role, SendOp, after, fired, SendRefusal(sys, side, bare)), bare)
  }

  /** A wrapper's send answers with the failure of its weather. */
  lemma WrappedSendAlike(f: FaultInjectingTransport, sys: System, side: Side, e: WireEnvelope, size: Document -> nat,
                         after: Counts, fired: bool, refusal: Option<RuntimeError>)
    requires var bare := SendRefusal(sys, side, SizeWeather(f.inner.codec, Some(e), size));
             refusal == match Ruling(f.plan, f.role, SendOp, after, fired, bare)
                        case Primary => Some(InjectedError(f.role, SendOp, after.sends, f.plan.failure))
                        case Renamed(failure) => Some(InjectedError(f.role, SendOp, after.sends, failure))
                        case Passed => bare
    ensures Alike(refusal, SendRefusal(sys, side, SendWeather(f, sys, side, Some(e), size, after, fired)))
  {
  }

  /** Alike answers leave alike sessions behind. */
  lemma AlikeSends(s: Session, a: Action, x: Option<RuntimeError>, y: Option<RuntimeError>)
    requires s.machine.Ready() && Alike(x, y)
    ensures Perform(s, Sending(a, x)).Ok? <==> Perform(s, Sending(a, y)).Ok?
    ensures Perform(s, Sending(a, x)).Ok? ==> Perform(s, Sending(a, x)) == Perform(s, Sending(a, y))
  {
    hide Closed, Find, ObserveAt, RecordFault;
    if Emit(s.machine, a).Ok? && x.Some? {
      EmitKeepsState(s.machine, a);
      AlikeErrors(Emit(s.machine, a).value.machine, s.machine.current, s.trace, x.value, y.value);
    }
  }

  /** The system after the transport has answered a send, before the machine has recorded it. */
  function Queued(sys: System, side: Side, e: WireEnvelope, refusal: Option<RuntimeError>, aborted: bool): System {
    if aborted then sys.With(side, sys.At(side).(open := false))
    else if refusal.None? then sys.WithInbox(side.Other(), sys.Inbox(side.Other()) + [NormalEnvelope(e)])
    else sys
  }

  /** The objects see nothing of a system but its open ends and what can still be read. */
  predicate SameWire(a: System, b: System) {
    && a.left.open == b.left.open && a.right.open == b.right.open
    && (a.left.open ==> a.toLeft == b.toLeft) && (a.right.open ==> a.toRight == b.toRight)
  }

  lemma ModelsSameWire(a: System, b: System, wire: Wire, size: Document -> nat)
    requires Models(a, wire, size) && SameWire(a, b)
    ensures Models(b, wire, size)
  {
    hide Carries;
  }

  /** A send that is not refused succeeds. */
  lemma RefusedOrNot(s: Session, a: Action, refusal: Option<RuntimeError>)
    requires s.machine.Ready() && Emit(s.machine, a).Ok?
    ensures refusal.None? ==> Perform(s, Sending(a, refusal)).Ok?
  {
  }

  /** Where a send leaves the system, when the transport answers alike. */
  lemma SendLeaves(sys: System, side: Side, a: Action, w: Weather, refusal: Option<RuntimeError>, mid: System)
    requires sys.At(side).session.machine.Ready() && Emit(sys.At(side).session.machine, a).Ok?
    requires Alike(refusal, SendRefusal(sys, side, w))
    requires exists aborted ::
               mid == Queued(sys, side, Emit(sys.At(side).session.machine, a).value.envelope, refusal, aborted) &&
               (aborted ==> refusal.Some?)
    ensures var s, next := sys.At(side).session, DoSend(sys, side, a, w);
            match Perform(s, Sending(a, refusal))
            case Ok(s') =>
              && next.At(side).session == s' && next.At(side).live == sys.At(side).live
              && SameWire(next, if refusal.None? then mid else mid.With(side, mid.At(side).(open := false)))
            case Err(_) =>
              && next.At(side).session == Abandoned(s, Sending(a, refusal)) && !next.At(side).live
              && SameWire(next, mid.With(side, mid.At(side).(open := false)))
  {
    hide Closed, Find, Perform, Emit, SendRefusal;
    AlikeSends(sys.At(side).session, a, refusal, SendRefusal(sys, side, w));
    RefusedOrNot(sys.At(side).session, a, refusal);
  }

  /** A send through a wrapper answers as the model does in its weather. */
  method SendThrough(f: FaultInjectingTransport, e: WireEnvelope, size: Document -> nat,
                     ghost sys: System, ghost side: Side, ghost wire: Wire)
    returns (refusal: Option<RuntimeError>, ghost mid: System)
    requires Models(sys, wire, size) && f.inner == wire.End(side) && !f.waiting && Delivers(f.inner.codec, e, size)
    modifies f, f.flag, f.inner, wire.there, wire.back
    ensures Alike(refusal, SendRefusal(sys, side, SendWeather(f, sys, side, Some(e), size, f.Seen(), old(f.flag.fired))))
    ensures exists aborted :: mid == Queued(sys, side, e, refusal, aborted) && (aborted ==> refusal.Some?)
    ensures Models(mid, wire, size) && !f.waiting
  {
    hide Encode, Decode;
    SendsAnswerAsModelled(sys, wire, side, e, size);
    ghost var verdict;
    ghost var fired := f.flag.fired;
    refusal, verdict := f.Send(e, size);
    WrappedSendAlike(f, sys, side, e, size, f.Seen(), fired, refusal);
    mid := Queued(sys, side, e, refusal, verdict.Primary?);
  }

  /** `send_and_record` after the transport's answer; an error drops the transport with its owner. */
  method Settle(machine: EndpointMachine, t: MemoryTransport, envelope: WireEnvelope, refusal: Option<RuntimeError>,
                trace: seq<Frame>, ghost size: Document -> nat, ghost s: Session, ghost a: Action, ghost w: Weather,
                ghost sys: System, ghost mid: System, ghost side: Side, ghost wire: Wire)
    returns (r: Result<bool, RuntimeError>, out: seq<Frame>, ghost next: System)
    requires s.machine.Ready() && Emit(s.machine, a) == Ok(Emission(machine.View(), envelope)) && machine.View().Ready()
    requires sys.At(side).live && sys.At(side).session == s && s.trace == trace
    requires Models(mid, wire, size) && t == wire.End(side) && Alike(refusal, SendRefusal(sys, side, w))
    requires exists aborted :: mid == Queued(sys, side, envelope, refusal, aborted) && (aborted ==> refusal.Some?)
    modifies machine, t, wire.there, wire.back
    ensures Step(sys, Do(side, Emits(a), w)) == Some(next)
    ensures Models(next, wire, size) && machine.View().Ready()
    ensures next.At(side).live == r.Ok? && next.At(side).session == Session(machine.View(), out)
  {
    hide Closed, Find, Encode, Decode, Emit, ObserveAt, SendRefusal, Models, EndOk, Queued;
    EmitKeepsState(s.machine, a);
    SendLeaves(sys, side, a, w, refusal, mid);
    var aborted;
    r, out, aborted := SendAndRecord(machine, envelope, refusal, trace);
    ghost var last := mid;
    if aborted || r.Err? {
      last := DropEnd(t, mid, side, wire, size);
    }
    next := DoSend(sys, side, a, w);
    ModelsSameWire(last, next, wire, size);
  }

  /**
   `emit_*` and `send_and_record` through a wrapper. The objects make exactly the step
   of the model, in the weather that the wrapper's ruling and the size limit give.
   */
  method EmitThrough(machine: EndpointMachine, f: FaultInjectingTransport, a: Action, trace: seq<Frame>, size: Document -> nat,
                     ghost sys: System, ghost side: Side, ghost wire: Wire)
    returns (r: Result<bool, RuntimeError>, out: seq<Frame>, ghost next: System)
    requires machine.View().Ready() && sys.At(side).live && sys.At(side).session == Session(machine.View(), trace)
    requires Models(sys, wire, size) && f.inner == wire.End(side) && !f.waiting
    requires Emit(machine.View(), a).Ok? ==> Delivers(f.inner.codec, Emit(machine.View(), a).value.envelope, size)
    modifies machine, f, f.flag, f.inner, wire.there, wire.back
    ensures var emit := Emit(old(machine.View()), a);
            var e := if emit.Ok? then Some(emit.value.envelope) else None;
            Step(sys, Do(side, Emits(a), SendWeather(f, sys, side, e, size, f.Seen(), old(f.flag.fired)))) == Some(next)
    ensures Models(next, wire, size) && machine.View().Ready() && !f.waiting
    ensures next.At(side).live == r.Ok? && next.At(side).session == Session(machine.View(), out)
  {
    hide Closed, Find, Encode, Decode, Emit, SendWeather, SendRefusal, Models, EndOk, Queued;
    ghost var s := Session(machine.View(), trace);
    ghost var fired := f.flag.fired;
    var emitted := EmitAction(machine, a);
    match emitted {
      case Err(error) =>
        ghost var dropped := DropEnd(f.inner, sys, side, wire, size);
        r, out := Err(error), trace;
        next := DoSend(sys, side, a, SendWeather(f, sys, side, None, size, f.Seen(), fired));
        ModelsSameWire(dropped, next, wire, size);
      case Ok(envelope) =>
        var refusal;
        ghost var mid;
        refusal, mid := SendThrough(f, envelope, size, sys, side, wire);
        ghost var w := SendWeather(f, sys, side, Some(envelope), size, f.Seen(), fired);
        r, out, next := Settle(machine, f.inner, envelope, refusal, trace, size, s, a, w, sys, mid, side, wire);
    }
  }

  /** The same over a bare transport: nothing is met but a closed channel and the size limit. */
  method EmitOver(machine: EndpointMachine, t: MemoryTransport, a: Action, trace: seq<Frame>, size: Document -> nat,
                  ghost sys: System, ghost side: Side, ghost wire: Wire)
    returns (r: Result<bool, RuntimeError>, out: seq<Frame>, ghost next: System)
    requires machine.View().Ready() && sys.At(side).live && sys.At(side).session == Session(machine.View(), trace)
    requires Models(sys, wire, size) && t == wire.End(side)
    requires Emit(machine.View(), a).Ok? ==> Delivers(t.codec, Emit(machine.View(), a).value.envelope, size)
    modifies machine, t, wire.there, wire.back
    ensures var emit := Emit(old(machine.View()), a);
            var e := if emit.Ok? then Some(emit.value.envelope) else None;
            Step(sys, Do(side, Emits(a), SizeWeather(t.codec, e, size))) == Some(next)
    ensures Models(next, wire, size) && machine.View().Ready()
    ensures next.At(side).live == r.Ok? && next.At(side).session == Session(machine.View(), out)
  {
    hide Closed, Find, Encode, Decode, Emit, SizeWeather, SendRefusal;
    ghost var s := Session(machine.View(), trace);
    var emitted := EmitAction(machine, a);
    match emitted {
      case Err(error) =>
        ghost var dropped := DropEnd(t, sys, side, wire, size);
        r, out := Err(error), trace;
        next := DoSend(sys, side, a, SizeWeather(t.codec, None, size));
        ModelsSameWire(dropped, next, wire, size);
      case Ok(envelope) =>
        SendsAnswerAsModelled(sys, wire, side, envelope, size);
        var refusal := t.Send(envelope, size);
        ghost var mid := Queued(sys, side, envelope, refusal, false);
        ghost var w := SizeWeather(t.codec, Some(envelope), size);
        r, out, next := Settle(machine, t, envelope, refusal, trace, size, s, a, w, sys, mid, side, wire);
    }
  }

  // ----- Receiving

  /** The weather of a receive through a wrapper; `waited` says that the call was counted before. */
  ghost function ReceiveWeather(f: FaultInjectingTransport, sys: System, side: Side, after: Counts, fired: bool, waited: bool): Weather {
    var bare := ReceiveReply(sys, side, Clear(None));
    var error := if bare.Some? && bare.value.Err? then Some(bare.value.error) else None;
    var verdict := if waited then MapPeer(f.plan, f.role, fired, error) else Ruling(f.plan, f.role, ReceiveOp, after, fired, error);
    WeatherOf(f.plan, verdict, Clear(None))
  }

  /** Two answers to a receive: the same envelope, or errors that name the same failure. */
  predicate AlikeReply(a: Result<WireEnvelope, RuntimeError>, b: Result<WireEnvelope, RuntimeError>) {
    if a.Ok? then a == b else b.Err? && a.error.TransportFailure() == b.error.TransportFailure()
  }

  lemma AlikeReceives(s: Session, x: Result<WireEnvelope, RuntimeError>, y: Result<WireEnvelope, RuntimeError>)
    requires s.machine.Ready() && AlikeReply(x, y)
    ensures Perform(s, Receiving(x)).Ok? <==> Perform(s, Receiving(y)).Ok?
    ensures Perform(s, Receiving(x)).Ok? ==> Perform(s, Receiving(x)) == Perform(s, Receiving(y))
  {
    hide Closed, Find, ObserveAt, RecordFault, Accept;
    if x.Err? { AlikeErrors(s.machine, s.machine.current, s.trace, x.error, y.error); }
  }

  /** The system after the transport has answered a receive, before the machine has recorded it. */
  function Dequeued(sys: System, side: Side, reply: Result<WireEnvelope, RuntimeError>, aborted: bool): System {
    if aborted then sys.With(side, sys.At(side).(open := false))
    else if reply.Ok? && sys.Inbox(side) != [] then sys.WithInbox(side, sys.Inbox(side)[1..])
    else sys
  }

  /** A wrapper's receive answers with the failure of its weather. */
  lemma WrappedReceiveAlike(f: FaultInjectingTransport, sys: System, side: Side, after: Counts, fired: bool, waited: bool,
                            bare: Received, verdict: Verdict, r: Received)
    requires bare == match ReceiveReply(sys, side, Clear(None))
                     case None => Blocked
                     case Some(reply) => Answer(reply)
    requires verdict == if waited then MapPeer(f.plan, f.role, fired, ErrorOf(bare))
                        else Ruling(f.plan, f.role, ReceiveOp, after, fired, ErrorOf(bare))
    requires r == match verdict
                  case Primary => Answer(Err(InjectedError(f.role, ReceiveOp, after.receives, f.plan.failure)))
                  case Renamed(failure) => Answer(Err(InjectedError(f.role, ReceiveOp, after.receives, failure)))
                  case Passed => bare
    ensures var reply := ReceiveReply(sys, side, ReceiveWeather(f, sys, side, after, fired, waited));
            if r.Blocked? then reply.None? && bare.Blocked? else reply.Some? && AlikeReply(r.reply, reply.value)
    ensures verdict.Primary? ==> r.Answer? && r.reply.Err?
    ensures !verdict.Primary? ==> (r.Blocked? <==> bare.Blocked?) &&
                                  (r.Answer? ==> (r.reply.Ok? <==> bare.reply.Ok?))
  {
  }

  /** A receive through a wrapper answers as the model does in its weather. */
  method ReceiveThrough(f: FaultInjectingTransport, size: Document -> nat, ghost sys: System, ghost side: Side, ghost wire: Wire)
    returns (r: Received, ghost mid: System)
    requires Models(sys, wire, size) && f.inner == wire.End(side)
    modifies f, f.flag, f.inner, wire.there, wire.back
    ensures var reply := ReceiveReply(sys, side, ReceiveWeather(f, sys, side, f.Seen(), old(f.flag.fired), old(f.waiting)));
            if r.Blocked? then reply.None? && mid == sys
            else reply.Some? && AlikeReply(r.reply, reply.value) && exists aborted ::
                   mid == Dequeued(sys, side, r.reply, aborted) && (aborted ==> r.reply.Err?)
    ensures Models(mid, wire, size) && f.waiting == r.Blocked?
  {
    hide Decode, ReceiveWeather, MapPeer, Ruling, ErrorOf;
    ReceivesAnswerAsModelled(sys, wire, side, size);
    ghost var bare, fired, waited := f.inner.ReceiveAnswer(size), f.flag.fired, f.waiting;
    ghost var verdict;
    r, verdict := f.Receive(size);
    WrappedReceiveAlike(f, sys, side, f.Seen(), fired, waited, bare, verdict, r);
    mid := if r.Blocked? then sys else Dequeued(sys, side, r.reply, verdict.Primary?);
  }

  /** Where a receive leaves the system, when the transport answers alike. */
  lemma ReceiveLeaves(sys: System, side: Side, w: Weather, reply: Result<WireEnvelope, RuntimeError>, mid: System)
    requires sys.At(side).session.machine.Ready()
    requires ReceiveReply(sys, side, w).Some? && AlikeReply(reply, ReceiveReply(sys, side, w).value)
    requires exists aborted :: mid == Dequeued(sys, side, reply, aborted) && (aborted ==> reply.Err?)
    ensures DoReceive(sys, side, w).Some?
    ensures var s, next := sys.At(side).session, DoReceive(sys, side, w).value;
            match Perform(s, Receiving(reply))
            case Ok(s') =>
              && next.At(side).session == s' && next.At(side).live == sys.At(side).live
              && SameWire(next, if reply.Ok? then mid else mid.With(side, mid.At(side).(open := false)))
            case Err(_) =>
              && next.At(side).session == s && !next.At(side).live
              && SameWire(next, mid.With(side, mid.At(side).(open := false)))
  {
    hide Closed, Find, Perform;
    AlikeReceives(sys.At(side).session, reply, ReceiveReply(sys, side, w).value);
  }

  /** `receive_and_record` after the transport's answer; an error drops the transport with its owner. */
  method Absorb(machine: EndpointMachine, t: MemoryTransport, reply: Result<WireEnvelope, RuntimeError>, trace: seq<Frame>,
                ghost size: Document -> nat, ghost w: Weather, ghost sys: System, ghost mid: System, ghost side: Side, ghost wire: Wire)
    returns (r: Result<Option<Frame>, RuntimeError>, out: seq<Frame>, ghost next: System)
    requires machine.View().Ready() && sys.At(side).live && sys.At(side).session == Session(machine.View(), trace)
    requires Models(mid, wire, size) && t == wire.End(side)
    requires ReceiveReply(sys, side, w).Some? && AlikeReply(reply, ReceiveReply(sys, side, w).value)
    requires exists aborted :: mid == Dequeued(sys, side, reply, aborted) && (aborted ==> reply.Err?)
    modifies machine, t, wire.there, wire.back
    ensures Step(sys, Do(side, Receives, w)) == Some(next)
    ensures Models(next, wire, size) && machine.View().Ready()
    ensures next.At(side).live == r.Ok? && next.At(side).session == Session(machine.View(), out)
  {
    hide Closed, Find, Decode, Accept, ObserveAt, ReceiveReply, Models, EndOk, Dequeued;
    ReceiveLeaves(sys, side, w, reply, mid);
    var aborted;
    r, out, aborted := ReceiveAndRecord(machine, reply, trace);
    ghost var last := mid;
    if aborted || r.Err? {
      last := DropEnd(t, mid, side, wire, size);
    }
    next := DoReceive(sys, side, w).value;
    ModelsSameWire(last, next, wire, size);
  }

  /**
   `receive_and_record` through a wrapper, polled: None while it blocks, which is when
   the model has no such step. Otherwise the objects make exactly the step of the model.
   */
  method AcceptThrough(machine: EndpointMachine, f: FaultInjectingTransport, trace: seq<Frame>, size: Document -> nat,
                       ghost sys: System, ghost side: Side, ghost wire: Wire)
    returns (r: Option<Result<Option<Frame>, RuntimeError>>, out: seq<Frame>, ghost next: System)
    requires machine.View().Ready() && sys.At(side).live && sys.At(side).session == Session(machine.View(), trace)
    requires Models(sys, wire, size) && f.inner == wire.End(side)
    modifies machine, f, f.flag, f.inner, wire.there, wire.back
    ensures Step(sys, Do(side, Receives, ReceiveWeather(f, sys, side, f.Seen(), old(f.flag.fired), old(f.waiting)))) ==
            if r.None? then None else Some(next)
    ensures r.None? ==> next == sys
    ensures Models(next, wire, size) && machine.View().Ready() && f.waiting == r.None?
    ensures next.At(side).live == (r.Some? ==> r.value.Ok?) && next.At(side).session == Session(machine.View(), out)
  {
    hide Closed, Find, Decode, ReceiveReply, ReceiveWeather, Models, EndOk, Dequeued;
    ghost var fired, waited := f.flag.fired, f.waiting;
    var answer;
    ghost var mid;
    answer, mid := ReceiveThrough(f, size, sys, side, wire);
    ghost var w := ReceiveWeather(f, sys, side, f.Seen(), fired, waited);
    match answer {
      case Blocked => r, out, next := None, trace, sys;
      case Answer(reply) =>
        var taken;
        taken, out, next := Absorb(machine, f.inner, reply, trace, size, w, sys, mid, side, wire);
        r := Some(taken);
    }
  }

  /** The same over a bare transport. */
  method AcceptOver(machine: EndpointMachine, t: MemoryTransport, trace: seq<Frame>, size: Document -> nat,
                    ghost sys: System, ghost side: Side, ghost wire: Wire)
    returns (r: Option<Result<Option<Frame>, RuntimeError>>, out: seq<Frame>, ghost next: System)
    requires machine.View().Ready() && sys.At(side).live && sys.At(side).session == Session(machine.View(), trace)
    requires Models(sys, wire, size) && t == wire.End(side)
    modifies machine, t, wire.there, wire.back
    ensures Step(sys, Do(side, Receives, Clear(None))) == if r.None? then None else Some(next)
    ensures r.None? ==> next == sys
    ensures Models(next, wire, size) && machine.View().Ready()
    ensures next.At(side).live == (r.Some? ==> r.value.Ok?) && next.At(side).session == Session(machine.View(), out)
  {
    hide Closed, Find, Decode;
    ReceivesAnswerAsModelled(sys, wire, side, size);
    var answer := t.Receive(size);
    match answer {
      case Blocked => r, out, next := None, trace, sys;
      case Answer(reply) =>
        ghost var mid := Dequeued(sys, side, reply, false);
        var taken;
        taken, out, next := Absorb(machine, t, reply, trace, size, Clear(None), sys, mid, side, wire);
        r := Some(taken);
    }
  }
}
