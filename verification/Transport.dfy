/**
 The in-memory transport and the fault-injecting wrapper, as the mutable objects
 they are, and the theorem that the wrapper injects exactly one planned fault.
 */
module Transports {
  import opened Basics
  import opened Traces
  import opened Machines
  import opened Systems
  import opened Codecs

  // ----- Channels and the memory pair

  /** What a channel holds: its documents, and whether each of its ends is still held. */
  datatype Pipe = Pipe(items: seq<Document>, senderAlive: bool, receiverAlive: bool)

  /** One FIFO channel with its two ends. */
  class Channel {
    var items: seq<Document>
    var senderAlive: bool
    var receiverAlive: bool

    ghost function View(): Pipe
      reads this
    {
      Pipe(items, senderAlive, receiverAlive)
    }

    constructor ()
      ensures View() == Pipe([], true, true)
    {
      items, senderAlive, receiverAlive := [], true, true;
    }
  }

  /** `receive` may have nothing to answer yet. */
  datatype Received = Blocked | Answer(reply: Result<WireEnvelope, RuntimeError>)

  /** A pipe after a send that met `refusal`. */
  ghost function Sent(codec: EnvelopeCodec, pipe: Pipe, envelope: WireEnvelope, size: Document -> nat,
                      refusal: Option<RuntimeError>): Pipe
  {
    match Encode(codec, envelope, size)
    case Ok(d) => if refusal.None? then pipe.(items := pipe.items + [d]) else pipe
    case Err(_) => pipe
  }

  /** A pipe after a receive: its oldest document is gone, if it had one. */
  function Taken(pipe: Pipe): Pipe { if pipe.items == [] then pipe else pipe.(items := pipe.items[1..]) }

  class MemoryTransport {
    var outbound: Channel?
    var inbound: Channel?
    const codec: EnvelopeCodec

    constructor (outbound: Channel, inbound: Channel, codec: EnvelopeCodec)
      ensures this.outbound == outbound && this.inbound == inbound && this.codec == codec
    {
      this.outbound, this.inbound, this.codec := outbound, inbound, codec;
    }

    /** Both ends are held or both were taken; a held end is alive. */
    ghost predicate Valid()
      reads this, outbound, inbound
    {
      && (outbound == null <==> inbound == null)
      && (outbound != null ==> outbound != inbound && outbound.senderAlive && inbound.receiverAlive)
    }

    /** What a send would answer now. */
    ghost function SendAnswer(envelope: WireEnvelope, size: Document -> nat): Option<RuntimeError>
      reads this, outbound
    {
      match Encode(codec, envelope, size)
      case Err(error) => Some(error)
      case Ok(d) => if outbound != null && outbound.receiverAlive then None else Some(TransportClosed)
    }

    /** What a receive would answer now: the oldest document even after the sender is gone, an error only on an empty, orphaned channel. */
    ghost function ReceiveAnswer(size: Document -> nat): Received
      reads this, inbound
    {
      if inbound == null then Answer(Err(TransportClosed))
      else if inbound.items != [] then Answer(Decode(codec, inbound.items[0], size))
      else if inbound.senderAlive then Blocked
      else Answer(Err(TransportClosed))
    }

    method Send(envelope: WireEnvelope, size: Document -> nat) returns (refusal: Option<RuntimeError>)
      requires Valid()
      modifies outbound
      ensures Valid() && refusal == old(SendAnswer(envelope, size))
      ensures outbound != null ==> outbound.View() == Sent(codec, old(outbound.View()), envelope, size, refusal)
    {
      match Encode(codec, envelope, size) {
        case Err(error) => refusal := Some(error);
        case Ok(d) =>
          if outbound == null || !outbound.receiverAlive {
            refusal := Some(TransportClosed);
          } else {
            outbound.items := outbound.items + [d];
            refusal := None;
          }
      }
    }

    method Receive(size: Document -> nat) returns (r: Received)
      requires Valid()
      modifies inbound
      ensures Valid() && r == old(ReceiveAnswer(size))
      ensures inbound != null ==> inbound.View() == Taken(old(inbound.View()))
    {
      if inbound == null { return Answer(Err(TransportClosed)); }
      if inbound.items == [] {
        return if inbound.senderAlive then Blocked else Answer(Err(TransportClosed));
      }
      var d := inbound.items[0];
      inbound.items := inbound.items[1..];
      r := Answer(Decode(codec, d, size));
    }

    /** `abort` drops both ends: the peer can still drain what was sent, and nothing can be sent here any more. */
    method Abort()
      requires Valid()
      modifies this, outbound, inbound
      ensures Valid() && outbound == null && inbound == null
      ensures old(outbound) != null ==>
                && old(outbound).View() == old(outbound.View()).(senderAlive := false)
                && old(inbound).View() == old(inbound.View()).(receiverAlive := false)
    {
      if outbound != null {
        outbound.senderAlive := false;
        inbound.receiverAlive := false;
      }
      outbound, inbound := null, null;
    }
  }

  /** `memory_pair_with_codec`: two crossed channels. */
  method MemoryPair(codec: EnvelopeCodec) returns (client: MemoryTransport, server: MemoryTransport)
    ensures fresh(client) && fresh(server) && client.Valid() && server.Valid()
    ensures client.codec == codec && server.codec == codec
    ensures client.outbound != null && server.outbound != null
    ensures client != server && client.outbound == server.inbound && server.outbound == client.inbound
    ensures client.outbound != client.inbound && fresh(client.outbound) && fresh(client.inbound)
    ensures client.outbound.View() == server.outbound.View() == Pipe([], true, true)
  {
    var there := new Channel();
    var back := new Channel();
    client := new MemoryTransport(there, back, codec);
    server := new MemoryTransport(back, there, codec);
  }

  // ----- Fault injection

  datatype Operation = SendOp | ReceiveOp
  {
    function Name(): string { if this == SendOp then "send" else "receive" }
  }

  datatype FaultPlan = FaultPlan(role: string, operation: Operation, occurrence: nat, failure: string,
                                 peerFailure: Option<string>)

  /** The calls a wrapper has seen. */
  datatype Counts = Counts(sends: nat, receives: nat)
  {
    function Of(op: Operation): nat { if op == SendOp then sends else receives }
    function Bump(op: Operation): Counts { if op == SendOp then this.(sends := sends + 1) else this.(receives := receives + 1) }
  }

  /** What a call does: inject the planned fault, rename the error of the inner call, or pass it on. */
  datatype Verdict = Primary | Renamed(failure: string) | Passed

  predicate ShouldInject(plan: FaultPlan, role: string, op: Operation, after: Counts, fired: bool) {
    !fired && role == plan.role && op == plan.operation && after.Of(op) == plan.occurrence
  }

  function MapPeer(plan: FaultPlan, role: string, fired: bool, inner: Option<RuntimeError>): Verdict {
    if inner.Some? && role != plan.role && fired && inner.value.TransportFailure().Some? && plan.peerFailure.Some?
    then Renamed(plan.peerFailure.value)
    else Passed
  }

  /** What the wrapper makes of one call: `after` counts the call, `inner` is the wrapped call's error. */
  function Ruling(plan: FaultPlan, role: string, op: Operation, after: Counts, fired: bool, inner: Option<RuntimeError>): Verdict {
    if ShouldInject(plan, role, op, after, fired) then Primary else MapPeer(plan, role, fired, inner)
  }

  function ErrorOf(r: Received): Option<RuntimeError> {
    if r.Answer? && r.reply.Err? then Some(r.reply.error) else None
  }

  function InjectedError(role: string, op: Operation, occurrence: nat, failure: string): RuntimeError {
    InjectedFailure(role, op.Name(), occurrence, failure)
  }

  /** The flag both wrappers share. */
  class Flag {
    var fired: bool
    constructor () ensures !fired { fired := false; }
  }

  class FaultInjectingTransport {
    const inner: MemoryTransport
    const role: string
    const plan: FaultPlan
    var sends: nat
    var receives: nat
    /** A receive has been counted and still blocks: the next `Receive` is the rest of that call. */
    var waiting: bool
    const flag: Flag

    constructor WithFired(inner: MemoryTransport, role: string, plan: FaultPlan, flag: Flag)
      requires plan.occurrence > 0
      ensures this.inner == inner && this.role == role && this.plan == plan && this.flag == flag
      ensures Seen() == Counts(0, 0) && !waiting
    {
      this.inner, this.role, this.plan, this.flag := inner, role, plan, flag;
      sends, receives, waiting := 0, 0, false;
    }

    ghost function Seen(): Counts
      reads this
    {
      Counts(sends, receives)
    }

    method InjectNow(op: Operation) returns (b: bool)
      modifies `sends, `receives, flag
      ensures Seen() == old(Seen()).Bump(op)
      ensures b == ShouldInject(plan, role, op, Seen(), old(flag.fired))
      ensures flag.fired == (old(flag.fired) || b)
    {
      var occurrence;
      match op {
        case SendOp => sends := sends + 1; occurrence := sends;
        case ReceiveOp => receives := receives + 1; occurrence := receives;
      }
      b := !flag.fired && role == plan.role && op == plan.operation && occurrence == plan.occurrence;
      if b {
        flag.fired := true;
      }
    }

    method Send(envelope: WireEnvelope, size: Document -> nat) returns (refusal: Option<RuntimeError>, ghost verdict: Verdict)
      requires inner.Valid() && !waiting
      modifies `sends, `receives, flag, inner, inner.outbound, inner.inbound
      ensures inner.Valid()
      ensures Seen() == old(Seen()).Bump(SendOp)
      ensures verdict == Ruling(plan, role, SendOp, Seen(), old(flag.fired), old(inner.SendAnswer(envelope, size)))
      ensures flag.fired == (old(flag.fired) || verdict.Primary?)
      ensures refusal == match verdict
                         case Primary => Some(InjectedFailure(role, "send", sends, plan.failure))
                         case Renamed(failure) => Some(InjectedFailure(role, "send", sends, failure))
                         case Passed => old(inner.SendAnswer(envelope, size))
      ensures verdict.Primary? ==> inner.outbound == null && inner.inbound == null
      ensures verdict.Primary? && old(inner.outbound) != null ==>
                && old(inner.outbound).View() == old(inner.outbound.View()).(senderAlive := false)
                && old(inner.inbound).View() == old(inner.inbound.View()).(receiverAlive := false)
      ensures !verdict.Primary? ==> inner.outbound == old(inner.outbound) && inner.inbound == old(inner.inbound)
      ensures !verdict.Primary? && inner.outbound != null ==>
                && inner.outbound.View() == Sent(inner.codec, old(inner.outbound.View()), envelope, size, refusal)
                && inner.inbound.View() == old(inner.inbound.View())
    {
      var now := InjectNow(SendOp);
      if now {
        inner.Abort();
        return Some(InjectedError(role, SendOp, sends, plan.failure)), Primary;
      }
      refusal := inner.Send(envelope, size);
      verdict := MapPeer(plan, role, flag.fired, refusal);
      if refusal.Some? && role != plan.role && flag.fired && refusal.value.TransportFailure().Some? {
        if plan.peerFailure.Some? {
          refusal := Some(InjectedError(role, SendOp, sends, plan.peerFailure.value));
        }
      }
    }

    method Receive(size: Document -> nat) returns (r: Received, ghost verdict: Verdict)
      requires inner.Valid()
      modifies this, flag, inner, inner.outbound, inner.inbound
      ensures inner.Valid()
      ensures Seen() == if old(waiting) then old(Seen()) else old(Seen()).Bump(ReceiveOp)
      ensures verdict == var error := ErrorOf(old(inner.ReceiveAnswer(size)));
                         if old(waiting) then MapPeer(plan, role, old(flag.fired), error)
                         else Ruling(plan, role, ReceiveOp, Seen(), old(flag.fired), error)
      ensures flag.fired == (old(flag.fired) || verdict.Primary?)
      ensures r == match verdict
                   case Primary => Answer(Err(InjectedFailure(role, "receive", receives, plan.failure)))
                   case Renamed(failure) => Answer(Err(InjectedFailure(role, "receive", receives, failure)))
                   case Passed => old(inner.ReceiveAnswer(size))
      ensures waiting == r.Blocked?
      ensures verdict.Primary? ==> inner.outbound == null && inner.inbound == null
      ensures verdict.Primary? && old(inner.outbound) != null ==>
                && old(inner.outbound).View() == old(inner.outbound.View()).(senderAlive := false)
                && old(inner.inbound).View() == old(inner.inbound.View()).(receiverAlive := false)
      ensures !verdict.Primary? ==> inner.outbound == old(inner.outbound) && inner.inbound == old(inner.inbound)
      ensures !verdict.Primary? && inner.outbound != null ==>
                && inner.outbound.View() == old(inner.outbound.View())
                && inner.inbound.View() == Taken(old(inner.inbound.View()))
    {
      if !waiting {
        var now := InjectNow(ReceiveOp);
        if now {
          inner.Abort();
          return Answer(Err(InjectedError(role, ReceiveOp, receives, plan.failure))), Primary;
        }
      }
      r := inner.Receive(size);
      verdict := MapPeer(plan, role, flag.fired, ErrorOf(r));
      if r.Answer? && r.reply.Err? && role != plan.role && flag.fired && r.reply.error.TransportFailure().Some? {
        if plan.peerFailure.Some? {
          r := Answer(Err(InjectedError(role, ReceiveOp, receives, plan.peerFailure.value)));
        }
      }
      waiting := r.Blocked?;
    }
  }

  // ----- Every interleaving of calls on two wrappers that share one flag

  /**
   A call is made on the wrapper of one side, and returns; between the two events of
   a receive that blocks, the other side may make calls. `error` is what the wrapped
   call reports. A call at which the fault is raised returns at once.
   */
  datatype CallEvent = Made(side: Side, operation: Operation) | Returned(side: Side, error: Option<RuntimeError>)

  datatype Injector = Injector(left: Counts, right: Counts, fired: bool)
  {
    function At(side: Side): Counts { if side == Left then left else right }
    function Bump(side: Side, op: Operation): Injector {
      if side == Left then this.(left := left.Bump(op)) else this.(right := right.Bump(op))
    }
  }

  function RoleAt(roles: (string, string), side: Side): string { if side == Left then roles.0 else roles.1 }

  /** What the wrapper decides at one event. */
  function Judge(plan: FaultPlan, roles: (string, string), st: Injector, event: CallEvent): Verdict {
    match event
    case Made(side, op) =>
      if ShouldInject(plan, RoleAt(roles, side), op, st.Bump(side, op).At(side), st.fired) then Primary else Passed
    case Returned(side, error) => MapPeer(plan, RoleAt(roles, side), st.fired, error)
  }

  function Judged(plan: FaultPlan, roles: (string, string), st: Injector, event: CallEvent): Injector {
    var counted := if event.Made? then st.Bump(event.side, event.operation) else st;
    counted.(fired := st.fired || Judge(plan, roles, st, event).Primary?)
  }

  function AfterEvents(plan: FaultPlan, roles: (string, string), events: seq<CallEvent>): Injector {
    if |events| == 0 then Injector(Counts(0, 0), Counts(0, 0), false)
    else Judged(plan, roles, AfterEvents(plan, roles, events[..|events| - 1]), events[|events| - 1])
  }

  predicate IsPlanned(plan: FaultPlan, roles: (string, string), event: CallEvent) {
    event.Made? && RoleAt(roles, event.side) == plan.role && event.operation == plan.operation
  }

  /** How many calls of the planned role and kind have been made. */
  function Planned(plan: FaultPlan, roles: (string, string), events: seq<CallEvent>): nat {
    if |events| == 0 then 0
    else Planned(plan, roles, events[..|events| - 1]) + if IsPlanned(plan, roles, events[|events| - 1]) then 1 else 0
  }

  lemma {:induction false} CountsArePlanned(plan: FaultPlan, roles: (string, string), events: seq<CallEvent>)
    requires plan.occurrence > 0 && roles.0 != roles.1
    ensures var st := AfterEvents(plan, roles, events);
            && (plan.role == roles.0 ==> st.left.Of(plan.operation) == Planned(plan, roles, events))
            && (plan.role == roles.1 ==> st.right.Of(plan.operation) == Planned(plan, roles, events))
            && (plan.role != roles.0 && plan.role != roles.1 ==> Planned(plan, roles, events) == 0)
            && (st.fired <==> Planned(plan, roles, events) >= plan.occurrence)
  {
    if |events| == 0 {
    } else {
      CountsArePlanned(plan, roles, events[..|events| - 1]);
    }
  }

  /**
   Injection is exact, in every interleaving. The fault fires once the planned role
   has made the planned number of calls of the planned kind, and not before; it is
   raised at that call and nowhere else; every other result is passed on, except that
   a transport error is renamed when it returns to the other side after the fault.
   */
  lemma InjectionIsExact(plan: FaultPlan, roles: (string, string), events: seq<CallEvent>, i: nat)
    requires plan.occurrence > 0 && roles.0 != roles.1 && i < |events|
    ensures var before := AfterEvents(plan, roles, events[..i]);
            var verdict := Judge(plan, roles, before, events[i]);
            && (before.fired <==> Planned(plan, roles, events[..i]) >= plan.occurrence)
            && (verdict.Primary? <==> IsPlanned(plan, roles, events[i]) && Planned(plan, roles, events[..i + 1]) == plan.occurrence)
            && (verdict.Renamed? <==>
                  && events[i].Returned? && RoleAt(roles, events[i].side) != plan.role && plan.peerFailure.Some?
                  && Planned(plan, roles, events[..i]) >= plan.occurrence
                  && events[i].error.Some? && events[i].error.value.TransportFailure().Some?)
            && (verdict.Renamed? ==> Some(verdict.failure) == plan.peerFailure)
  {
    CountsArePlanned(plan, roles, events[..i]);
    assert events[..i + 1][..i] == events[..i];
  }
}
