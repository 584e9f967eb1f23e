/**
 `send_and_record` and `receive_and_record`: one endpoint against a transport.

 The transport is whatever it answers: a send is refused with some error or not,
 a receive brings some envelope or some error. Theorems over `RunEvents` hold for
 every sequence of calls and every sequence of answers.
 */
module Sessions {
  import opened Basics
  import opened Conversations
  import opened Traces
  import opened Projection
  import opened Machines

  datatype Session = Session(machine: Machine, trace: seq<Frame>)

  datatype Event =
    | Sending(action: Action, refusal: Option<RuntimeError>)
    | Receiving(reply: Result<WireEnvelope, RuntimeError>)

  /** The transport's answer to one call: an error, or success and, for a receive, the envelope. */
  datatype Reply = Reply(refusal: Option<RuntimeError>, envelope: WireEnvelope)

  function EventOf(sending: bool, action: Action, r: Reply): Event {
    if sending then Sending(action, r.refusal)
    else Receiving(if r.refusal.Some? then Err(r.refusal.value) else Ok(r.envelope))
  }

  /** The common failure path: a transport error becomes a declared fault, any other error ends the session. */
  function RecordFault(m: Machine, id: string, trace: seq<Frame>, error: RuntimeError): Result<Session, RuntimeError>
    requires Find(m.endpoint.states, id).Some?
  {
    match error.TransportFailure()
    case None => Err(error)
    case Some(failure) =>
      match ObserveAt(m, id, failure)
      case Err(e) => Err(e)
      case Ok(next) => Ok(Session(next, trace + [Fault(m.endpoint.role, failure)]))
  }

  /** `send_and_record` on a machine that has already emitted `envelope`. */
  function RecordSend(m: Machine, envelope: WireEnvelope, trace: seq<Frame>, refusal: Option<RuntimeError>)
    : Result<Session, RuntimeError>
    requires Find(m.endpoint.states, envelope.state).Some?
  {
    if refusal.None? then Ok(Session(m, trace + [envelope.frame]))
    else RecordFault(m, envelope.state, trace, refusal.value)
  }

  function RecordReceive(s: Session, reply: Result<WireEnvelope, RuntimeError>): Result<Session, RuntimeError>
    requires s.machine.Ready()
  {
    match reply
    case Err(error) => RecordFault(s.machine, s.machine.current, s.trace, error)
    case Ok(envelope) =>
      match Accept(s.machine, envelope)
      case Err(e) => Err(e)
      case Ok(next) => Ok(Session(next, s.trace + [envelope.frame]))
  }

  /** One application call: emit and send, or receive. */
  function Perform(s: Session, event: Event): Result<Session, RuntimeError>
    requires s.machine.Ready()
  {
    match event
    case Receiving(reply) => RecordReceive(s, reply)
    case Sending(action, refusal) =>
      match Emit(s.machine, action)
      case Err(e) => Err(e)
      case Ok(e) => RecordSend(e.machine, e.envelope, s.trace, refusal)
  }

  /** What a call leaves behind when it returns an error: an emit has moved the machine before its send is refused. */
  function Abandoned(s: Session, event: Event): Session
    requires s.machine.Ready()
  {
    if event.Sending? && Emit(s.machine, event.action).Ok?
    then s.(machine := Emit(s.machine, event.action).value.machine)
    else s
  }

  lemma EmitKeepsState(m: Machine, a: Action)
    requires m.Ready() && Emit(m, a).Ok?
    ensures var e := Emit(m, a).value;
            && e.envelope.state == m.current && e.machine.endpoint == m.endpoint
            && Find(e.machine.endpoint.states, e.envelope.state).Some? && !e.envelope.frame.Fault?
  {
  }

  lemma FaultReady(m: Machine, id: string, trace: seq<Frame>, error: RuntimeError)
    requires m.Ready() && Find(m.endpoint.states, id).Some?
    ensures RecordFault(m, id, trace, error).Ok? ==>
              && RecordFault(m, id, trace, error).value.machine.Ready()
              && |RecordFault(m, id, trace, error).value.trace| == |trace| + 1
  {
    hide Find, Closed, ObserveAt;
    if error.TransportFailure().Some? && ObserveAt(m, id, error.TransportFailure().value).Ok? {
      ObserveReady(m, id, error.TransportFailure().value);
    }
  }

  /** A call that succeeds records a frame and leaves the machine inside its endpoint. */
  lemma PerformReady(s: Session, event: Event)
    requires s.machine.Ready()
    ensures Perform(s, event).Ok? ==>
              && Perform(s, event).value.machine.Ready()
              && |Perform(s, event).value.trace| == |s.trace| + 1
    ensures Abandoned(s, event).machine.Ready()
  {
    hide Find, Closed, Emit, Accept, ObserveAt;
    match event {
      case Sending(a, refusal) =>
        if Emit(s.machine, a).Ok? {
          EmitReady(s.machine, a);
          EmitKeepsState(s.machine, a);
          if refusal.Some? { FaultReady(Emit(s.machine, a).value.machine, s.machine.current, s.trace, refusal.value); }
        }
      case Receiving(Ok(e)) => if Accept(s.machine, e).Ok? { AcceptReady(s.machine, e); }
      case Receiving(Err(error)) => FaultReady(s.machine, s.machine.current, s.trace, error);
    }
  }

  // ----- The two procedures, on the mutable machine

  method SendAndRecord(machine: EndpointMachine, envelope: WireEnvelope, refusal: Option<RuntimeError>, trace: seq<Frame>)
    returns (r: Result<bool, RuntimeError>, out: seq<Frame>, aborted: bool)
    requires machine.View().Ready() && Find(machine.endpoint.states, envelope.state).Some?
    modifies machine
    ensures machine.View().Ready()
    ensures aborted <==> refusal.Some? && refusal.value.TransportFailure().Some?
    ensures match RecordSend(old(machine.View()), envelope, trace, refusal)
            case Ok(s) => r == Ok(refusal.None?) && machine.View() == s.machine && out == s.trace
            case Err(e) => r == Err(e) && machine.View() == old(machine.View()) && out == trace
  {
    out, aborted := trace, false;
    match refusal {
      case None =>
        out := out + [envelope.frame];
        r := Ok(true);
      case Some(error) =>
        match error.TransportFailure() {
          case None => r := Err(error);
          case Some(failure) =>
            aborted := true;
            var fault := machine.ObserveFailureAt(envelope.state, failure);
            match fault {
              case Err(e) => r := Err(e);
              case Ok(frame) =>
                out := out + [frame];
                r := Ok(false);
            }
        }
    }
  }

  method ReceiveAndRecord(machine: EndpointMachine, reply: Result<WireEnvelope, RuntimeError>, trace: seq<Frame>)
    returns (r: Result<Option<Frame>, RuntimeError>, out: seq<Frame>, aborted: bool)
    requires machine.View().Ready()
    modifies machine
    ensures machine.View().Ready()
    ensures aborted <==> reply.Err? && reply.error.TransportFailure().Some?
    ensures match RecordReceive(Session(old(machine.View()), trace), reply)
            case Ok(s) => && r == Ok(if reply.Ok? then Some(reply.value.frame) else None)
                          && machine.View() == s.machine && out == s.trace
            case Err(e) => r == Err(e) && machine.View() == old(machine.View()) && out == trace
  {
    out, aborted := trace, false;
    match reply {
      case Ok(envelope) =>
        var accepted := machine.AcceptEnvelope(envelope);
        match accepted {
          case Err(e) => r := Err(e);
          case Ok(frame) =>
            out := out + [frame];
            r := Ok(Some(frame));
        }
      case Err(error) =>
        match error.TransportFailure() {
          case None => r := Err(error);
          case Some(failure) =>
            aborted := true;
            var fault := machine.ObserveFailureAt(machine.current, failure);
            match fault {
              case Err(e) => r := Err(e);
              case Ok(frame) =>
                out := out + [frame];
                r := Ok(None);
            }
        }
    }
  }

  /** The `emit_*` call of an action. */
  method EmitAction(machine: EndpointMachine, a: Action) returns (r: Result<WireEnvelope, RuntimeError>)
    requires machine.View().Ready()
    modifies machine
    ensures Emitted(old(machine.View()), a, r, machine.View()) && machine.View().Ready()
  {
    match a {
      case SendData(payload) => r := machine.EmitData(payload);
      case Choose(branch) => r := machine.EmitSelect(branch);
      case SendCancellation => r := machine.EmitCancel();
    }
  }

  // ----- Whole sessions

  function Initial(c: Conversation, role: string, identity: string, planIdentity: string): Session {
    Session(Machine(Project(c, role), identity, planIdentity, c.initial, 0), [])
  }

  /** A session over its calls, as long as each of them returns Ok. */
  ghost function RunEvents(start: Session, events: seq<Event>): Result<Session, RuntimeError> {
    if |events| == 0 then Ok(start)
    else match RunEvents(start, events[..|events| - 1])
         case Err(e) => Err(e)
         case Ok(s) => if s.machine.Ready() then Perform(s, events[|events| - 1]) else Err(Application)
  }

  ghost predicate NoFault(frames: seq<Frame>) {
    forall i :: 0 <= i < |frames| ==> !frames[i].Fault?
  }

  predicate Faulted(trace: seq<Frame>) {
    |trace| > 0 && trace[|trace| - 1].Fault?
  }

  /** The trace without the fault that may end it. */
  function Clean(trace: seq<Frame>): seq<Frame> {
    if Faulted(trace) then trace[..|trace| - 1] else trace
  }

  /** A session whose trace the graph accepts and whose machine stands where the trace leads. */
  ghost predicate Consistent(c: Conversation, role: string, s: Session) {
    && Runs(c, role, s.machine)
    && RunTrace(c, s.trace) == Some(s.machine.current)
    && NoFault(Clean(s.trace))
  }

  /** A refused send from a state whose edge leads back to itself: the call that counts its step twice. */
  ghost predicate RefusedSelfLoop(s: Session, event: Event) {
    && s.machine.Ready() && event.Sending? && event.refusal.Some?
    && Emit(s.machine, event.action).Ok?
    && Emit(s.machine, event.action).value.machine.current == s.machine.current
  }

  lemma FaultedIsFailed(c: Conversation, s: Session)
    requires Sound(c) && RunTrace(c, s.trace) == Some(s.machine.current) && Faulted(s.trace)
    ensures s.machine.current in StateMap(c.states) && StateMap(c.states)[s.machine.current].Fail?
  {
    StepStaysIndexed(c, RunTrace(c, s.trace[..|s.trace| - 1]).value, s.trace[|s.trace| - 1]);
  }

  lemma TerminalRefuses(s: Session, event: Event)
    requires s.machine.Ready() && s.machine.Local().Terminal()
    ensures Perform(s, event).Err?
  {
    match event {
      case Receiving(Err(error)) =>
        assert forall failure :: ObserveAt(s.machine, s.machine.current, failure).Err?;
      case Receiving(Ok(envelope)) =>
        assert Incoming(s.machine.endpoint.role, s.machine.Local(), envelope.frame).None?;
      case Sending(action, _) =>
        assert Outgoing(s.machine.endpoint.role, s.machine.Local(), action).None?;
    }
  }

  /** No call on a failed machine returns Ok. */
  lemma FailedRefuses(c: Conversation, role: string, s: Session, event: Event)
    requires Sound(c) && Runs(c, role, s.machine) && StateMap(c.states)[s.machine.current].Terminal()
    ensures s.machine.Ready() && Perform(s, event).Err?
  {
    LocalIsProjected(c, role, s.machine);
    TerminalRefuses(s, event);
  }

  /** The fault path: the fault is a step at `id`, and the rest of the machine is kept. */
  lemma FaultIsStep(c: Conversation, role: string, m: Machine, id: string, trace: seq<Frame>, error: RuntimeError)
    requires Sound(c) && Runs(c, role, m) && RunTrace(c, trace) == Some(id) && id in StateMap(c.states) && NoFault(trace)
    ensures Find(m.endpoint.states, id).Some?
    ensures RecordFault(m, id, trace, error).Ok? ==>
              var s' := RecordFault(m, id, trace, error).value;
              && Consistent(c, role, s')
              && error.TransportFailure().Some?
              && s'.trace == trace + [Fault(role, error.TransportFailure().value)]
              && s'.machine.sequence == (if m.current == id then m.sequence + 1 else m.sequence)
              && s'.machine.identity == m.identity && s'.machine.planIdentity == m.planIdentity
  {
    hide StateMap, Find, Closed, RuntimeError.TransportFailure;
    FindProjected(c, role, id);
    if RecordFault(m, id, trace, error).Ok? {
      var failure := error.TransportFailure().value;
      ObserveIsStep(c, role, m, id, failure);
      RunExtend(c, trace, Fault(role, failure));
      assert Clean(trace + [Fault(role, failure)]) == trace;
    }
  }

  /** Every Ok call keeps the session consistent, records one frame and counts it, twice only on a refused self-loop. */
  lemma PerformIsStep(c: Conversation, role: string, s: Session, event: Event)
    requires Sound(c) && Consistent(c, role, s)
    ensures s.machine.Ready()
    ensures Perform(s, event).Ok? ==>
              var s' := Perform(s, event).value;
              && Consistent(c, role, s')
              && !Faulted(s.trace)
              && |s'.trace| == |s.trace| + 1 && s'.trace[..|s.trace|] == s.trace
              && s'.machine.sequence == s.machine.sequence + (if RefusedSelfLoop(s, event) then 2 else 1)
              && s'.machine.identity == s.machine.identity && s'.machine.planIdentity == s.machine.planIdentity
              && (RefusedSelfLoop(s, event) ==> Faulted(s'.trace))
  {
    LocalIsProjected(c, role, s.machine);
    if Perform(s, event).Ok? {
      if Faulted(s.trace) {
        FaultedIsFailed(c, s);
        FailedRefuses(c, role, s, event);
        assert false;
      }
      match event {
        case Receiving(Err(error)) =>
          FaultIsStep(c, role, s.machine, s.machine.current, s.trace, error);
        case Receiving(Ok(envelope)) =>
          AcceptIsStep(c, role, s.machine, envelope);
          RunExtend(c, s.trace, envelope.frame);
        case Sending(action, refusal) =>
          EmitIsStep(c, role, s.machine, action);
          var e := Emit(s.machine, action).value;
          if refusal.Some? {
            FaultIsStep(c, role, e.machine, s.machine.current, s.trace, refusal.value);
          } else {
            RunExtend(c, s.trace, e.envelope.frame);
          }
      }
    }
  }

  /** The machine stands at a listed state and sees its outcome. */
  ghost predicate StandsAtListed(c: Conversation, m: Machine)
    requires m.Ready()
  {
    exists g :: g in c.states && g.id == m.current
                && (m.Local().End? <==> g.End?) && (m.Local().Fail? <==> g.Fail?) && (g.Fail? ==> m.Local().failure == g.failure)
  }

  lemma LocalIsListed(c: Conversation, role: string, m: Machine)
    requires Sound(c) && Runs(c, role, m)
    ensures m.Ready() && StandsAtListed(c, m)
  {
    hide StateMap, Find, Closed, Sound;
    LocalIsProjected(c, role, m);
    StateMapKeys(c.states);
    assert StateMap(c.states)[m.current] in c.states;
  }

  /** What an execution report says about the machine. */
  function MachineReport(s: Session): TraceReport
    requires s.machine.Ready()
  {
    var local := s.machine.Local();
    TraceReport(|s.trace|, s.machine.current, local.Terminal(), local.End?,
                if local.Fail? then Some(local.failure) else None)
  }

  lemma {:induction false} SessionStaysConsistent(c: Conversation, role: string, identity: string, planIdentity: string,
                                                  events: seq<Event>)
    requires Sound(c) && role in c.roles
    requires RunEvents(Initial(c, role, identity, planIdentity), events).Ok?
    ensures Consistent(c, role, RunEvents(Initial(c, role, identity, planIdentity), events).value)
    ensures |RunEvents(Initial(c, role, identity, planIdentity), events).value.trace| == |events|
  {
    if |events| == 0 {
    } else {
      var n := |events| - 1;
      SessionStaysConsistent(c, role, identity, planIdentity, events[..n]);
      PerformIsStep(c, role, RunEvents(Initial(c, role, identity, planIdentity), events[..n]).value, events[n]);
    }
  }

  /**
   Projection refines the global semantics. Whatever the transport answers, a
   session all of whose calls returned Ok has recorded a trace that the reference
   semantics accepts, ending where the machine ends and with the same outcome.
   */
  lemma {:induction false} SessionsRefineConversation(c: Conversation, role: string, identity: string, planIdentity: string,
                                                      events: seq<Event>)
    requires Valid(c) && role in c.roles
    requires RunEvents(Initial(c, role, identity, planIdentity), events).Ok?
    ensures var s := RunEvents(Initial(c, role, identity, planIdentity), events).value;
            && s.machine.Ready()
            && RunTrace(c, s.trace) == Some(s.machine.current)
            && Describes(c, MachineReport(s))
            && NoFault(Clean(s.trace))
            && StandsAtListed(c, s.machine)
  {
    hide StandsAtListed, StateMap, Find, Closed;
    ValidIsSound(c);
    SessionStaysConsistent(c, role, identity, planIdentity, events);
    var s := RunEvents(Initial(c, role, identity, planIdentity), events).value;
    LocalIsProjected(c, role, s.machine);
    LocalIsListed(c, role, s.machine);
  }

  /**
   Frame counting. The sequence counter equals the number of recorded frames,
   except when the last call was a refused send on a self-loop: then it is one more.
   */
  lemma {:induction false} SequenceCountsFrames(c: Conversation, role: string, identity: string, planIdentity: string,
                                                events: seq<Event>)
    requires Valid(c) && role in c.roles
    requires RunEvents(Initial(c, role, identity, planIdentity), events).Ok?
    ensures var start := Initial(c, role, identity, planIdentity);
            var s := RunEvents(start, events).value;
            var n := |events|;
            s.machine.sequence == |s.trace| +
              if n > 0 && RefusedSelfLoop(RunEvents(start, events[..n - 1]).value, events[n - 1]) then 1 else 0
  {
    ValidIsSound(c);
    if |events| == 0 {
    } else {
      var n := |events| - 1;
      var start := Initial(c, role, identity, planIdentity);
      SessionStaysConsistent(c, role, identity, planIdentity, events[..n]);
      SequenceCountsFrames(c, role, identity, planIdentity, events[..n]);
      var s := RunEvents(start, events[..n]).value;
      PerformIsStep(c, role, s, events[n]);
      if n > 0 {
        SessionStaysConsistent(c, role, identity, planIdentity, events[..n][..n - 1]);
        PerformIsStep(c, role, RunEvents(start, events[..n][..n - 1]).value, events[..n][n - 1]);
      }
    }
  }

  // ----- Which failure an error becomes

  /** The errors of a transport and the failures they stand for. */
  ghost predicate StandsFor(error: RuntimeError, failure: string) {
    || (error == Io(TimedOut) && failure == "transport.timeout")
    || (error == Io(WouldBlock) && failure == "transport.timeout")
    || (error == Io(ConnectionReset) && failure == "transport.reset")
    || (error == Io(ConnectionRefused) && failure == "transport.unreachable")
    || (error == Io(AddrNotAvailable) && failure == "transport.unreachable")
    || (error == Io(NotConnected) && failure == "transport.unreachable")
    || (error == Io(Other) && failure == "transport.closed")
    || (error == TransportClosed && failure == "transport.closed")
    || (error == Quic && failure == "transport.closed")
    || (error == Iroh && failure == "transport.closed")
    || (error.InjectedFailure? && failure == error.failure)
  }

  ghost predicate EdgeOf(s: EndpointState, failure: string, next: string) {
    !s.End? && !s.Fail? && failure in s.onFailure && s.onFailure[failure] == next
  }

  /** A state's edge for a failure it declares. */
  ghost predicate HasEdge(m: Machine, id: string, failure: string, next: string) {
    Find(m.endpoint.states, id).Some? && EdgeOf(Find(m.endpoint.states, id).value, failure, next)
  }

  lemma EdgeIsTarget(s: EndpointState, failure: string)
    ensures forall next :: EdgeOf(s, failure, next) <==> s.FailureTarget(failure) == Some(next)
  {
  }

  lemma FailureOfError(error: RuntimeError, failure: string)
    requires StandsFor(error, failure)
    ensures error.TransportFailure() == Some(failure)
  {
  }

  /**
   A transport error is recorded as the fault it stands for, along the edge of the
   state at which the call was made; where the state has no such edge, the call fails.
   */
  lemma FaultOfError(m: Machine, id: string, trace: seq<Frame>, error: RuntimeError, failure: string)
    requires Find(m.endpoint.states, id).Some? && StandsFor(error, failure)
    ensures forall next :: HasEdge(m, id, failure, next) ==>
              RecordFault(m, id, trace, error) ==
              Ok(Session(m.(current := next, sequence := if m.current == id then m.sequence + 1 else m.sequence),
                         trace + [Fault(m.endpoint.role, failure)]))
    ensures (forall next :: !HasEdge(m, id, failure, next)) ==>
              RecordFault(m, id, trace, error) == Err(Protocol(id, "observe failure"))
  {
    hide Find, EdgeOf, StandsFor, RuntimeError.TransportFailure, EndpointState.FailureTarget;
    FailureOfError(error, failure);
    var target := Find(m.endpoint.states, id).value.FailureTarget(failure);
    EdgeIsTarget(Find(m.endpoint.states, id).value, failure);
    if target.Some? { assert HasEdge(m, id, failure, target.value); }
  }

  /** `receive_and_record` on a transport error. */
  lemma ReceiveErrorBecomes(s: Session, error: RuntimeError, failure: string, next: string)
    requires s.machine.Ready() && StandsFor(error, failure) && HasEdge(s.machine, s.machine.current, failure, next)
    ensures RecordReceive(s, Err(error)) ==
            Ok(Session(s.machine.(current := next, sequence := s.machine.sequence + 1),
                       s.trace + [Fault(s.machine.endpoint.role, failure)]))
  {
    hide Find, Closed, RecordFault;
    FaultOfError(s.machine, s.machine.current, s.trace, error, failure);
  }

  /** `send_and_record` on a transport error: the edge of the state that the envelope left. */
  lemma SendErrorBecomes(m: Machine, envelope: WireEnvelope, trace: seq<Frame>, error: RuntimeError, failure: string, next: string)
    requires StandsFor(error, failure) && HasEdge(m, envelope.state, failure, next)
    ensures RecordSend(m, envelope, trace, Some(error)) ==
            Ok(Session(m.(current := next, sequence := if m.current == envelope.state then m.sequence + 1 else m.sequence),
                       trace + [Fault(m.endpoint.role, failure)]))
  {
    hide Find, RecordFault;
    FaultOfError(m, envelope.state, trace, error, failure);
  }

  lemma EveryIoStandsFor(kind: IoKind)
    ensures exists failure :: StandsFor(Io(kind), failure)
  {
    match kind {
      case TimedOut => assert StandsFor(Io(kind), "transport.timeout");
      case WouldBlock => assert StandsFor(Io(kind), "transport.timeout");
      case ConnectionReset => assert StandsFor(Io(kind), "transport.reset");
      case ConnectionRefused => assert StandsFor(Io(kind), "transport.unreachable");
      case AddrNotAvailable => assert StandsFor(Io(kind), "transport.unreachable");
      case NotConnected => assert StandsFor(Io(kind), "transport.unreachable");
      case Other => assert StandsFor(Io(kind), "transport.closed");
    }
  }

  /** Every other error is returned as it is, and nothing is recorded. */
  lemma OtherErrorsEnd(s: Session, m: Machine, envelope: WireEnvelope, trace: seq<Frame>, error: RuntimeError)
    requires s.machine.Ready() && Find(m.endpoint.states, envelope.state).Some?
    requires forall failure :: !StandsFor(error, failure)
    ensures RecordReceive(s, Err(error)) == Err(error) && RecordSend(m, envelope, trace, Some(error)) == Err(error)
  {
    hide Find, Closed, ObserveAt;
    assert forall e: RuntimeError :: e.InjectedFailure? ==> StandsFor(e, e.failure);
    assert error != TransportClosed by { assert StandsFor(TransportClosed, "transport.closed"); }
    assert error != Quic by { assert StandsFor(Quic, "transport.closed"); }
    assert error != Iroh by { assert StandsFor(Iroh, "transport.closed"); }
    if error.Io? {
      EveryIoStandsFor(error.kind);
    }
  }
}
