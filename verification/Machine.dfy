/**
 The endpoint machine of the runtime.

 `Machine` is the value a machine object holds; `Emit`, `Accept` and `ObserveAt`
 say what one call does to it. The class `EndpointMachine` is the mutable object,
 each method proved against these functions. `sequence` is a nat: the 64-bit
 bound is not modelled.
 */
module Machines {
  import opened Basics
  import opened Conversations
  import opened Traces
  import opened Projection

  const WIRE_FORMAT := "0.1.0"

  datatype WireEnvelope = WireEnvelope(wire: string, conversation: string, identity: string, state: string,
                                       sequence: nat, frame: Frame)

  datatype IoKind = TimedOut | WouldBlock | ConnectionReset | ConnectionRefused | AddrNotAvailable | NotConnected | Other

  datatype RuntimeError =
    | UnknownRole(role: string)
    | Codec
    | CompactWire
    | SessionRequired
    | SessionMismatch(field: string)
    | SessionRejected
    | Io(kind: IoKind)
    | TransportClosed
    | EnvelopeTooLarge
    | PrefaceTooLarge
    | WireVersion
    | ConversationMismatch
    | IdentityMismatch
    | StateMismatch
    | SequenceMismatch
    | Protocol(state: string, action: string)
    | Application
    | Quic
    | Iroh
    | InjectedFailure(injectedRole: string, operation: string, occurrence: nat, failure: string)
  {
    /** The declared failure a transport error stands for; other errors end the session. */
    function TransportFailure(): Option<string> {
      match this
      case Io(kind) =>
        Some(match kind
             case TimedOut => "transport.timeout"
             case WouldBlock => "transport.timeout"
             case ConnectionReset => "transport.reset"
             case ConnectionRefused => "transport.unreachable"
             case AddrNotAvailable => "transport.unreachable"
             case NotConnected => "transport.unreachable"
             case Other => "transport.closed")
      case TransportClosed => Some("transport.closed")
      case Quic => Some("transport.closed")
      case Iroh => Some("transport.closed")
      case InjectedFailure(_, _, _, failure) => Some(failure)
      case _ => None
    }
  }

  datatype Action = SendData(payload: Json) | Choose(branch: string) | SendCancellation

  datatype Machine = Machine(endpoint: Endpoint, identity: string, planIdentity: string, current: string, sequence: nat)
  {
    ghost predicate Ready() {
      Closed(endpoint) && Find(endpoint.states, current).Some?
    }

    function Local(): EndpointState
      requires Find(endpoint.states, current).Some?
    {
      Find(endpoint.states, current).value
    }
  }

  datatype Emission = Emission(machine: Machine, envelope: WireEnvelope)

  function Stamp(m: Machine, frame: Frame): WireEnvelope {
    WireEnvelope(WIRE_FORMAT, m.endpoint.conversation, m.identity, m.current, m.sequence, frame)
  }

  function Moved(m: Machine, next: string): Machine {
    m.(current := next, sequence := m.sequence + 1)
  }

  /** The frame an action would put on the wire and the state it leads to, if the state permits it. */
  function Outgoing(role: string, s: EndpointState, a: Action): Option<(Frame, string)> {
    match a
    case SendData(payload) =>
      if s.Send? then Some((Data(role, s.to, s.message, Some(payload)), s.next)) else None
    case Choose(branch) =>
      if s.Select? && branch in s.branches then Some((Frame.Select(role, branch), s.branches[branch])) else None
    case SendCancellation =>
      if s.SendCancel? then Some((Frame.Cancel(role, s.to, s.scope), s.next)) else None
  }

  function ActionName(a: Action): string {
    match a
    case SendData(_) => "send data"
    case Choose(_) => "select branch"
    case SendCancellation => "send cancellation"
  }

  /** `emit_data`, `emit_select` and `emit_cancel` */
  function Emit(m: Machine, a: Action): Result<Emission, RuntimeError>
    requires Find(m.endpoint.states, m.current).Some?
  {
    match Outgoing(m.endpoint.role, m.Local(), a)
    case Some((frame, next)) => Ok(Emission(Moved(m, next), Stamp(m, frame)))
    case None => Err(Protocol(m.current, ActionName(a)))
  }

  /** The state an incoming frame leads to, if the local state expects the frame. */
  function Incoming(role: string, s: EndpointState, frame: Frame): Option<string> {
    match frame
    case Data(from, to, message, _) =>
      if s.Receive? && s.from == from && role == to && s.message == message then Some(s.next) else None
    case Select(chooser, branch) =>
      if s.Branch? && s.from == chooser && branch in s.branches then Some(s.branches[branch]) else None
    case Cancel(from, to, scope) =>
      if s.ReceiveCancel? && s.from == from && role == to && s.scope == scope then Some(s.next) else None
    case Fault(_, _) => None
  }

  /** `validate_envelope`: the first field that disagrees, if any. */
  function EnvelopeError(m: Machine, e: WireEnvelope): Option<RuntimeError> {
    if e.wire != WIRE_FORMAT then Some(WireVersion)
    else if e.conversation != m.endpoint.conversation then Some(ConversationMismatch)
    else if e.identity != m.identity then Some(IdentityMismatch)
    else if e.state != m.current then Some(StateMismatch)
    else if e.sequence != m.sequence then Some(SequenceMismatch)
    else None
  }

  function Accept(m: Machine, e: WireEnvelope): Result<Machine, RuntimeError>
    requires Find(m.endpoint.states, m.current).Some?
  {
    match EnvelopeError(m, e)
    case Some(error) => Err(error)
    case None =>
      match Incoming(m.endpoint.role, m.Local(), e.frame)
      case Some(next) => Ok(Moved(m, next))
      case None => Err(Protocol(m.current, "receive frame"))
  }

  /** `observe_failure_at`: the step is counted only when the machine still stands at that state. */
  function ObserveAt(m: Machine, id: string, failure: string): Result<Machine, RuntimeError>
    requires Find(m.endpoint.states, id).Some?
  {
    match Find(m.endpoint.states, id).value.FailureTarget(failure)
    case None => Err(Protocol(id, "observe failure"))
    case Some(next) => Ok(m.(current := next, sequence := if m.current == id then m.sequence + 1 else m.sequence))
  }

  // ----- Machines stay inside their endpoint

  lemma EmitReady(m: Machine, a: Action)
    requires m.Ready() && Emit(m, a).Ok?
    ensures Emit(m, a).value.machine.Ready()
  {
    FindFinds(m.endpoint.states, m.current);
    var s := m.Local();
    match a {
      case SendData(_) => assert s.next in s.Successors();
      case Choose(branch) => assert s.branches[branch] in s.Successors();
      case SendCancellation => assert s.next in s.Successors();
    }
  }

  lemma AcceptReady(m: Machine, e: WireEnvelope)
    requires m.Ready() && Accept(m, e).Ok?
    ensures Accept(m, e).value.Ready()
  {
    FindFinds(m.endpoint.states, m.current);
    var s := m.Local();
    match e.frame {
      case Data(_, _, _, _) => assert s.next in s.Successors();
      case Select(_, branch) => assert s.branches[branch] in s.Successors();
      case Cancel(_, _, _) => assert s.next in s.Successors();
    }
  }

  lemma ObserveReady(m: Machine, id: string, failure: string)
    requires m.Ready() && Find(m.endpoint.states, id).Some? && ObserveAt(m, id, failure).Ok?
    ensures ObserveAt(m, id, failure).value.Ready()
  {
    FindFinds(m.endpoint.states, id);
    var s := Find(m.endpoint.states, id).value;
    assert s.onFailure[failure] in s.Successors();
  }

  // ----- The mutable object

  /** A call that either emitted `a` or failed and left the machine alone. */
  ghost predicate Emitted(before: Machine, a: Action, r: Result<WireEnvelope, RuntimeError>, after: Machine)
    requires before.Ready()
  {
    match Emit(before, a)
    case Ok(e) => r == Ok(e.envelope) && after == e.machine
    case Err(error) => r == Err(error) && after == before
  }

  class EndpointMachine {
    const endpoint: Endpoint
    const identity: string
    const planIdentity: string
    var current: string
    var sequence: nat

    ghost function View(): Machine
      reads this
    {
      Machine(endpoint, identity, planIdentity, current, sequence)
    }

    constructor (endpoint: Endpoint, identity: string, planIdentity: string)
      requires Closed(endpoint)
      ensures View() == Machine(endpoint, identity, planIdentity, endpoint.initial, 0)
      ensures View().Ready()
    {
      this.endpoint, this.identity, this.planIdentity := endpoint, identity, planIdentity;
      current, sequence := endpoint.initial, 0;
    }

    method IsComplete() returns (b: bool)
      requires View().Ready()
      ensures b == View().Local().Terminal()
    {
      b := Find(endpoint.states, current).value.Terminal();
    }

    method IsSuccessful() returns (b: bool)
      requires View().Ready()
      ensures b == View().Local().End?
    {
      b := Find(endpoint.states, current).value.End?;
    }

    method Failure() returns (f: Option<string>)
      requires View().Ready()
      ensures f == if View().Local().Fail? then Some(View().Local().failure) else None
    {
      var s := Find(endpoint.states, current).value;
      f := if s.Fail? then Some(s.failure) else None;
    }

    method EmitData(payload: Json) returns (r: Result<WireEnvelope, RuntimeError>)
      requires View().Ready()
      modifies this
      ensures Emitted(old(View()), SendData(payload), r, View()) && View().Ready()
    {
      var s := Find(endpoint.states, current).value;
      match s {
        case Send(_, to, message, next, _) =>
          EmitReady(View(), SendData(payload));
          var envelope := Advance(Data(endpoint.role, to, message, Some(payload)), next);
          r := Ok(envelope);
        case _ => r := Err(Protocol(current, "send data"));
      }
    }

    method EmitSelect(branch: string) returns (r: Result<WireEnvelope, RuntimeError>)
      requires View().Ready()
      modifies this
      ensures Emitted(old(View()), Choose(branch), r, View()) && View().Ready()
    {
      var s := Find(endpoint.states, current).value;
      match s {
        case Select(_, branches, _) =>
          if branch !in branches {
            return Err(Protocol(current, "select branch"));
          }
          EmitReady(View(), Choose(branch));
          var envelope := Advance(Frame.Select(endpoint.role, branch), branches[branch]);
          r := Ok(envelope);
        case _ => r := Err(Protocol(current, "select branch"));
      }
    }

    method EmitCancel() returns (r: Result<WireEnvelope, RuntimeError>)
      requires View().Ready()
      modifies this
      ensures Emitted(old(View()), SendCancellation, r, View()) && View().Ready()
    {
      var s := Find(endpoint.states, current).value;
      match s {
        case SendCancel(_, to, scope, next, _) =>
          EmitReady(View(), SendCancellation);
          var envelope := Advance(Frame.Cancel(endpoint.role, to, scope), next);
          r := Ok(envelope);
        case _ => r := Err(Protocol(current, "send cancellation"));
      }
    }

    /** The private `emit`: stamp the frame with the state it leaves, then move. */
    method Advance(frame: Frame, next: string) returns (envelope: WireEnvelope)
      modifies this
      ensures envelope == Stamp(old(View()), frame) && View() == Moved(old(View()), next)
    {
      envelope := WireEnvelope(WIRE_FORMAT, endpoint.conversation, identity, current, sequence, frame);
      current, sequence := next, sequence + 1;
    }

    method AcceptEnvelope(envelope: WireEnvelope) returns (r: Result<Frame, RuntimeError>)
      requires View().Ready()
      modifies this
      ensures View().Ready()
      ensures match Accept(old(View()), envelope)
              case Ok(m) => r == Ok(envelope.frame) && View() == m
              case Err(error) => r == Err(error) && View() == old(View())
    {
      if envelope.wire != WIRE_FORMAT { return Err(WireVersion); }
      if envelope.conversation != endpoint.conversation { return Err(ConversationMismatch); }
      if envelope.identity != identity { return Err(IdentityMismatch); }
      if envelope.state != current { return Err(StateMismatch); }
      if envelope.sequence != sequence { return Err(SequenceMismatch); }
      var s := Find(endpoint.states, current).value;
      match Incoming(endpoint.role, s, envelope.frame) {
        case None => return Err(Protocol(current, "receive frame"));
        case Some(next) =>
          AcceptReady(View(), envelope);
          current, sequence := next, sequence + 1;
          return Ok(envelope.frame);
      }
    }

    method ObserveFailureAt(id: string, failure: string) returns (r: Result<Frame, RuntimeError>)
      requires View().Ready() && Find(endpoint.states, id).Some?
      modifies this
      ensures View().Ready()
      ensures match ObserveAt(old(View()), id, failure)
              case Ok(m) => r == Ok(Fault(endpoint.role, failure)) && View() == m
              case Err(error) => r == Err(error) && View() == old(View())
    {
      var wasCurrent := current == id;
      match Find(endpoint.states, id).value.FailureTarget(failure) {
        case None => return Err(Protocol(id, "observe failure"));
        case Some(next) =>
          ObserveReady(View(), id, failure);
          current := next;
          if wasCurrent {
            sequence := sequence + 1;
          }
          return Ok(Fault(endpoint.role, failure));
      }
    }
  }

  // ----- What the machine calls mean in the global graph

  ghost predicate Runs(c: Conversation, role: string, m: Machine) {
    role in c.roles && m.endpoint == Project(c, role) && m.current in StateMap(c.states)
  }

  /** A machine of the projection stands at the projection of the global state it names. */
  lemma LocalIsProjected(c: Conversation, role: string, m: Machine)
    requires Sound(c) && Runs(c, role, m)
    ensures m.Ready() && m.Local() == ProjectState(StateMap(c.states)[m.current], role)
  {
    FindProjected(c, role, m.current);
    ProjectionIsClosed(c, role);
  }

  /** An emitted frame is a step of the graph, authored by the emitter. */
  lemma EmitIsStep(c: Conversation, role: string, m: Machine, a: Action)
    requires Sound(c) && Runs(c, role, m)
    ensures m.Ready()
    ensures Emit(m, a).Ok? ==>
              var e := Emit(m, a).value;
              && e.envelope == Stamp(m, e.envelope.frame)
              && e.machine == Moved(m, e.machine.current)
              && GlobalStep(c, m.current, e.envelope.frame) == Some(e.machine.current)
              && e.envelope.frame.Author() == role && !e.envelope.frame.Fault?
              && (e.envelope.frame.Data? ==> e.envelope.frame.payload.Some?)
              && Runs(c, role, e.machine)
  {
    LocalIsProjected(c, role, m);
    if Emit(m, a).Ok? {
      StepStaysIndexed(c, m.current, Emit(m, a).value.envelope.frame);
    }
  }

  /** The other role of a two-role conversation. */
  lemma TwoRoles(c: Conversation, x: string, y: string, z: string)
    requires Sound(c) && x in c.roles && y in c.roles && z in c.roles && x != y && x != z
    ensures y == z
  {
  }

  /** An accepted frame is a step of the graph, authored by the other role. */
  lemma AcceptIsStep(c: Conversation, role: string, m: Machine, e: WireEnvelope)
    requires Sound(c) && Runs(c, role, m)
    ensures m.Ready()
    ensures Accept(m, e).Ok? ==>
              && GlobalStep(c, m.current, e.frame) == Some(Accept(m, e).value.current)
              && Accept(m, e).value == Moved(m, Accept(m, e).value.current)
              && e.frame.Author() != role && !e.frame.Fault?
              && Runs(c, role, Accept(m, e).value)
  {
    LocalIsProjected(c, role, m);
    if Accept(m, e).Ok? {
      var s := StateMap(c.states)[m.current];
      assert IndexedOk(c, m.current);
      if s.Send? || s.Cancel? { TwoRoles(c, s.from, s.to, role); }
      StepStaysIndexed(c, m.current, e.frame);
    }
  }

  /** A well-stamped envelope with a step of the other role is always accepted. */
  lemma StepIsAccepted(c: Conversation, role: string, m: Machine, e: WireEnvelope)
    requires Sound(c) && Runs(c, role, m)
    requires EnvelopeError(m, e).None?
    requires GlobalStep(c, m.current, e.frame).Some? && !e.frame.Fault? && e.frame.Author() != role
    ensures m.Ready() && Accept(m, e).Ok?
  {
    LocalIsProjected(c, role, m);
    var s := StateMap(c.states)[m.current];
    assert IndexedOk(c, m.current);
    if s.Send? || s.Cancel? { TwoRoles(c, s.from, s.to, role); }
  }

  function ActionFor(frame: Frame): Action {
    match frame
    case Data(_, _, _, payload) => SendData(if payload.Some? then payload.value else Null)
    case Select(_, branch) => Choose(branch)
    case _ => SendCancellation
  }

  /** Every step of the graph is emitted by its author. */
  lemma StepIsEmitted(c: Conversation, role: string, m: Machine, frame: Frame)
    requires Sound(c) && Runs(c, role, m)
    requires GlobalStep(c, m.current, frame).Some? && !frame.Fault? && frame.Author() == role
    requires frame.Data? ==> frame.payload.Some?
    ensures m.Ready() && Emit(m, ActionFor(frame)).Ok?
    ensures Emit(m, ActionFor(frame)).value.envelope.frame == frame
  {
    hide StateMap, Find, Closed;
    LocalIsProjected(c, role, m);
  }

  /** A fault observed at `id` is a step of the graph into the terminal state of that failure. */
  lemma ObserveIsStep(c: Conversation, role: string, m: Machine, id: string, failure: string)
    requires Sound(c) && Runs(c, role, m) && id in StateMap(c.states)
    ensures Find(m.endpoint.states, id).Some?
    ensures ObserveAt(m, id, failure).Ok? ==>
              var next := ObserveAt(m, id, failure).value;
              && GlobalStep(c, id, Fault(role, failure)) == Some(next.current)
              && next.endpoint == m.endpoint && next.identity == m.identity && next.planIdentity == m.planIdentity
              && next.sequence == (if m.current == id then m.sequence + 1 else m.sequence)
              && next.current in StateMap(c.states)
              && StateMap(c.states)[next.current].Fail? && StateMap(c.states)[next.current].failure == failure
  {
    FindProjected(c, role, id);
    StepStaysIndexed(c, id, Fault(role, failure));
  }

  // ----- Exactly what is accepted and refused

  /**
   A projected machine accepts an envelope if and only if every field of its stamp
   agrees and its frame is a step of the graph by the other role.
   */
  lemma AcceptsExactly(c: Conversation, role: string, m: Machine, e: WireEnvelope)
    requires Sound(c) && Runs(c, role, m)
    ensures m.Ready()
    ensures Accept(m, e).Ok? <==>
              && e.wire == "0.1.0" && e.conversation == m.endpoint.conversation && e.identity == m.identity
              && e.state == m.current && e.sequence == m.sequence
              && GlobalStep(c, m.current, e.frame).Some? && !e.frame.Fault? && e.frame.Author() != role
    ensures Accept(m, e).Ok? ==>
              Accept(m, e).value == m.(current := GlobalStep(c, m.current, e.frame).value, sequence := m.sequence + 1)
  {
    hide StateMap, Find, Closed;
    AcceptIsStep(c, role, m, e);
    if EnvelopeError(m, e).None? && GlobalStep(c, m.current, e.frame).Some? && !e.frame.Fault? && e.frame.Author() != role {
      StepIsAccepted(c, role, m, e);
    }
  }

  /** The first field that disagrees names the error; with a fitting stamp it is the frame. */
  lemma AcceptErrors(m: Machine, e: WireEnvelope)
    requires m.Ready() && Accept(m, e).Err?
    ensures Accept(m, e).error ==
            if e.wire != "0.1.0" then WireVersion
            else if e.conversation != m.endpoint.conversation then ConversationMismatch
            else if e.identity != m.identity then IdentityMismatch
            else if e.state != m.current then StateMismatch
            else if e.sequence != m.sequence then SequenceMismatch
            else Protocol(m.current, "receive frame")
  {
    hide Find, Closed;
  }

  lemma EmittedFor(c: Conversation, role: string, m: Machine, a: Action)
    requires Sound(c) && Runs(c, role, m) && m.Ready() && Emit(m, a).Ok?
    ensures ActionFor(Emit(m, a).value.envelope.frame) == a
  {
    hide StateMap, Find, Closed;
  }

  /**
   A projected machine refuses to emit exactly when its state does not send that kind of
   frame, or does not know the label, and says which call was refused at which state.
   */
  lemma EmitErrors(c: Conversation, role: string, m: Machine, a: Action)
    requires Sound(c) && Runs(c, role, m)
    ensures m.Ready()
    ensures Emit(m, a).Ok? <==> exists frame: Frame ::
                                  && frame.Author() == role && !frame.Fault? && (frame.Data? ==> frame.payload.Some?)
                                  && ActionFor(frame) == a && GlobalStep(c, m.current, frame).Some?
    ensures Emit(m, a).Err? ==>
              Emit(m, a).error == Protocol(m.current, match a
                                                      case SendData(_) => "send data"
                                                      case Choose(_) => "select branch"
                                                      case SendCancellation => "send cancellation")
  {
    hide StateMap, Find, Closed;
    EmitIsStep(c, role, m, a);
    if Emit(m, a).Ok? {
      EmittedFor(c, role, m, a);
    }
    forall frame: Frame | frame.Author() == role && !frame.Fault? && (frame.Data? ==> frame.payload.Some?) &&
                          ActionFor(frame) == a && GlobalStep(c, m.current, frame).Some?
      ensures Emit(m, a).Ok?
    {
      StepIsEmitted(c, role, m, frame);
    }
  }
}
