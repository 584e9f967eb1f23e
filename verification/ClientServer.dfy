/** What the two pairs of application loops share: a client and a server over the in-memory transport. */
module ClientServer {
  import opened Basics
  import opened Conversations
  import opened Traces
  import opened Projection
  import opened Machines
  import opened Sessions
  import opened Systems

  // ----- The shape of a conversation, up to the names of its states

  ghost predicate IsSend(c: Conversation, id: string, from: string, to: string, message: string, next: string) {
    id in StateMap(c.states) &&
    var s := StateMap(c.states)[id];
    s.Send? && s.from == from && s.to == to && s.message == message && s.next == next
  }

  ghost predicate IsChoice(c: Conversation, id: string, chooser: string, branches: map<string, string>) {
    id in StateMap(c.states) &&
    var s := StateMap(c.states)[id];
    s.Choice? && s.chooser == chooser && s.branches == branches
  }

  ghost predicate IsCancel(c: Conversation, id: string, from: string, to: string, scope: string, next: string) {
    id in StateMap(c.states) &&
    var s := StateMap(c.states)[id];
    s.Cancel? && s.from == from && s.to == to && s.scope == scope && s.next == next
  }

  /** A sound conversation between a client and a server; the client is the left side. */
  ghost predicate ClientAndServer(c: Conversation) {
    Sound(c) && c.roles == ["client", "server"]
  }

  function RoleName(side: Side): string { if side == Left then "client" else "server" }

  lemma RolesDiffer()
    ensures "client" != "server"
  {
    assert "client"[0] != "server"[0];
  }

  lemma TwoSides(c: Conversation)
    requires ClientAndServer(c)
    ensures Sound(c) && "client" in c.roles && "server" in c.roles && "client" != "server"
    ensures forall side: Side :: RoleOf(c, side) == RoleName(side)
  {
    RolesDiffer();
    assert c.roles[0] == "client" && c.roles[1] == "server";
  }

  // ----- Calls

  /** The frame an action puts into the trace. */
  predicate Matches(a: Action, f: Frame) {
    match a
    case SendData(payload) => f.Data? && f.payload == Some(payload)
    case Choose(branch) => f.Select? && f.branch == branch
    case SendCancellation => f.Cancel?
  }

  /** What one successful call of a consistent session records and where it leads. */
  lemma CallRecords(c: Conversation, role: string, s: Session, event: Event)
    requires Sound(c) && Consistent(c, role, s) && s.machine.Ready() && Perform(s, event).Ok?
    ensures var s', f := Perform(s, event).value, Recorded(s, event);
            && Consistent(c, role, s') && s'.machine.Ready()
            && s'.trace == s.trace + [f] && !Faulted(s.trace)
            && GlobalStep(c, s.machine.current, f) == Some(s'.machine.current)
            && (f.Fault? <==> Failing(event))
            && (!f.Fault? ==> (f.Author() == role <==> event.Sending?))
            && (!f.Fault? && event.Sending? ==> Matches(event.action, f))
            && s'.machine.current in StateMap(c.states)
            && (s'.machine.Local().Terminal() <==> StateMap(c.states)[s'.machine.current].Terminal())
  {
    hide StateMap, Find, Closed, Sound;
    PerformIsStep(c, role, s, event);
    RecordedIsAppended(s, event);
    RunExtend(c, s.trace, Recorded(s, event));
    LocalIsProjected(c, role, Perform(s, event).value.machine);
    match event {
      case Sending(a, _) => EmitIsStep(c, role, s.machine, a);
      case Receiving(reply) =>
        if reply.Ok? { AcceptIsStep(c, role, s.machine, reply.value); }
    }
  }

  const NO_ENVELOPE := WireEnvelope("", "", "", "", 0, Fault("", ""))

  /** The answer a call meets, as an entry of the script its loop is run against. */
  function ReplyAt(sys: System, side: Side, call: Call, w: Weather): Reply {
    match call
    case Emits(_) => Reply(SendRefusal(sys, side, w), NO_ENVELOPE)
    case Receives =>
      match ReceiveReply(sys, side, w)
      case None => Reply(None, NO_ENVELOPE)
      case Some(Ok(e)) => Reply(None, e)
      case Some(Err(error)) => Reply(Some(error), NO_ENVELOPE)
  }

  lemma ReplyIsEvent(sys: System, side: Side, call: Call, w: Weather)
    requires EventAt(sys, side, call, w).Some?
    ensures EventAt(sys, side, call, w).value ==
            EventOf(call.Emits?, if call.Emits? then call.action else SendCancellation, ReplyAt(sys, side, call, w))
  {
  }

  // ----- The size limit

  /** Whether the text of an envelope is within the size limit. */
  type Fit = WireEnvelope -> bool

  /** The envelope that a call would put on the wire, if any, is within the limit. */
  ghost predicate CallFits(fit: Fit, m: Machine, call: Call) {
    call.Emits? && m.Ready() && Emit(m, call.action).Ok? ==> fit(Emit(m, call.action).value.envelope)
  }

  /** The weather of a reliable channel: nothing but the size limit is met. */
  ghost function Fair(fit: Fit, m: Machine, call: Call): Weather {
    if CallFits(fit, m, call) then Clear(None) else Oversize
  }

  // ----- Steps

  /** Frames recorded and ends closed. */
  function Weight(sys: System): nat {
    |sys.left.session.trace| + |sys.right.session.trace| +
    (if sys.left.open then 0 else 1) + (if sys.right.open then 0 else 1)
  }

  lemma DropStep(sys: System, side: Side)
    ensures Step(sys, Drop(side)) == Some(sys.With(side, sys.At(side).(open := false)))
  {
  }

  /** An envelope over the limit ends the loop that sends it with an error. */
  lemma OversizeErrs(sys: System, side: Side, call: Call)
    requires sys.At(side).session.machine.Ready() && call.Emits?
    ensures Perform(sys.At(side).session, Sending(call.action, SendRefusal(sys, side, Oversize))).Err?
  {
  }
}
