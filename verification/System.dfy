/**
 Two endpoints over the in-memory transport.

 The transport is a pair of FIFO queues. An endpoint that aborts, returns or is
 dropped closes its end: messages already queued for its peer can still be read,
 messages queued for itself are lost, and sends towards it fail. Emitting only
 touches the local machine, so an emit and the send that follows it are one step;
 when that send is refused with an error, the machine has moved all the same. A
 queue holds what was sent and not recorded by its reader, also after the reader
 has closed its end and lost it.
 Every call may meet an injected failure, and an envelope may be over the size
 limit. All statements are about every sequence of steps from the start.
 */
module Systems {
  import opened Basics
  import opened Conversations
  import opened Traces
  import opened Projection
  import opened Machines
  import opened Sessions

  datatype Side = Left | Right {
    function Other(): Side { if this == Left then Right else Left }
  }

  /** `open` is the transport end; `live` is false once a call of the endpoint returned an error. */
  datatype Peer = Peer(session: Session, open: bool, live: bool)

  datatype System = System(left: Peer, right: Peer, toLeft: seq<WireEnvelope>, toRight: seq<WireEnvelope>)
  {
    function At(side: Side): Peer { if side == Left then left else right }
    function Inbox(side: Side): seq<WireEnvelope> { if side == Left then toLeft else toRight }
    function With(side: Side, peer: Peer): System {
      if side == Left then this.(left := peer) else this.(right := peer)
    }
    function WithInbox(side: Side, q: seq<WireEnvelope>): System {
      if side == Left then this.(toLeft := q) else this.(toRight := q)
    }
  }

  /**
   What a call meets: nothing (a closed channel may be reported under another
   failure name), an injected failure, or the size limit.
   */
  datatype Weather = Clear(closedAs: Option<string>) | Inject(failure: string) | Oversize

  datatype Call = Emits(action: Action) | Receives

  datatype Act = Do(side: Side, call: Call, weather: Weather) | Drop(side: Side)

  function Injected(failure: string): RuntimeError { InjectedFailure("", "", 0, failure) }

  function ClosedError(w: Weather): RuntimeError
    requires w.Clear?
  {
    if w.closedAs.Some? then Injected(w.closedAs.value) else TransportClosed
  }

  function NormalEnvelope(e: WireEnvelope): WireEnvelope { e.(frame := Normal(e.frame)) }

  function SendRefusal(sys: System, side: Side, w: Weather): Option<RuntimeError> {
    match w
    case Inject(failure) => Some(Injected(failure))
    case Oversize => Some(EnvelopeTooLarge)
    case Clear(_) => if sys.At(side).open && sys.At(side.Other()).open then None else Some(ClosedError(w))
  }

  /** The answer to a receive; None while the call blocks. */
  function ReceiveReply(sys: System, side: Side, w: Weather): Option<Result<WireEnvelope, RuntimeError>> {
    match w
    case Inject(failure) => Some(Err(Injected(failure)))
    case Oversize => Some(Err(EnvelopeTooLarge))
    case Clear(_) =>
      if !sys.At(side).open then Some(Err(ClosedError(w)))
      else if sys.Inbox(side) != [] then Some(Ok(sys.Inbox(side)[0]))
      else if sys.At(side.Other()).open then None
      else Some(Err(ClosedError(w)))
  }

  /** An endpoint whose call returned an error stops and drops its transport. */
  function Stopped(p: Peer): Peer { p.(open := false, live := false) }

  function DoSend(sys: System, side: Side, a: Action, w: Weather): System
    requires sys.At(side).session.machine.Ready()
  {
    var p := sys.At(side);
    var refusal := SendRefusal(sys, side, w);
    match Perform(p.session, Sending(a, refusal))
    case Err(_) => sys.With(side, Stopped(p.(session := Abandoned(p.session, Sending(a, refusal)))))
    case Ok(s) =>
      if refusal.Some? then sys.With(side, p.(session := s, open := false))
      else
        var e := Emit(p.session.machine, a).value.envelope;
        sys.With(side, p.(session := s)).WithInbox(side.Other(), sys.Inbox(side.Other()) + [NormalEnvelope(e)])
  }

  function DoReceive(sys: System, side: Side, w: Weather): Option<System>
    requires sys.At(side).session.machine.Ready()
  {
    var p := sys.At(side);
    match ReceiveReply(sys, side, w)
    case None => None
    case Some(reply) =>
      match Perform(p.session, Receiving(reply))
      case Err(_) => Some(sys.With(side, Stopped(p)))
      case Ok(s) =>
        if reply.Err? then Some(sys.With(side, p.(session := s, open := false)))
        else Some(sys.With(side, p.(session := s)).WithInbox(side, sys.Inbox(side)[1..]))
  }

  /** One step; None when the call blocks or the endpoint has stopped. */
  ghost function Step(sys: System, act: Act): Option<System> {
    match act
    case Drop(side) => Some(sys.With(side, sys.At(side).(open := false)))
    case Do(side, call, w) =>
      if !sys.At(side).live || !sys.At(side).session.machine.Ready() then None
      else match call
           case Emits(a) => Some(DoSend(sys, side, a, w))
           case Receives => DoReceive(sys, side, w)
  }

  ghost function After(sys: System, acts: seq<Act>): Option<System> {
    if |acts| == 0 then Some(sys)
    else match After(sys, acts[..|acts| - 1])
         case None => None
         case Some(mid) => Step(mid, acts[|acts| - 1])
  }

  function RoleOf(c: Conversation, side: Side): string
    requires |c.roles| == 2
  {
    if side == Left then c.roles[0] else c.roles[1]
  }

  /** Both machines of a conversation at the initial state, joined by a fresh memory pair. */
  function Start(c: Conversation, identity: string, planIdentity: string): System
    requires |c.roles| == 2
  {
    System(Peer(Initial(c, c.roles[0], identity, planIdentity), true, true),
           Peer(Initial(c, c.roles[1], identity, planIdentity), true, true), [], [])
  }

  // ----- Calls that succeed

  lemma EmitSucceeds(sys: System, side: Side, a: Action)
    requires sys.At(side).live && sys.At(side).open && sys.At(side.Other()).open
    requires sys.At(side).session.machine.Ready() && Emit(sys.At(side).session.machine, a).Ok?
    ensures var p := sys.At(side);
            var e := Emit(p.session.machine, a).value;
            Step(sys, Do(side, Emits(a), Clear(None))) ==
            Some(sys.With(side, p.(session := Session(e.machine, p.session.trace + [e.envelope.frame])))
                    .WithInbox(side.Other(), sys.Inbox(side.Other()) + [NormalEnvelope(e.envelope)]))
  {
  }

  lemma ReceiveSucceeds(sys: System, side: Side)
    requires sys.At(side).live && sys.At(side).open && sys.Inbox(side) != []
    requires sys.At(side).session.machine.Ready() && Accept(sys.At(side).session.machine, sys.Inbox(side)[0]).Ok?
    ensures var p, e := sys.At(side), sys.Inbox(side)[0];
            Step(sys, Do(side, Receives, Clear(None))) ==
            Some(sys.With(side, p.(session := Session(Accept(p.session.machine, e).value, p.session.trace + [e.frame])))
                    .WithInbox(side, sys.Inbox(side)[1..]))
  {
  }

  // ----- The invariant

  function Frames(q: seq<WireEnvelope>): (r: seq<Frame>)
    ensures |r| == |q|
  {
    seq(|q|, i requires 0 <= i < |q| => q[i].frame)
  }

  /** `q` is a path of the graph from state `from` to state `to`: one author, stamped in order from `n`. */
  ghost predicate Path(c: Conversation, identity: string, q: seq<WireEnvelope>, from: string, n: nat, author: string, to: string)
  {
    if |q| == 0 then from == to
    else
      && q[0] == WireEnvelope(WIRE_FORMAT, c.moduleId, identity, from, n, q[0].frame)
      && !q[0].frame.Fault? && q[0].frame.Author() == author
      && GlobalStep(c, from, q[0].frame).Some?
      && Path(c, identity, q[1..], GlobalStep(c, from, q[0].frame).value, n + 1, author, to)
  }

  /** The state reached by a trace before the fault that may end it. */
  function Place(c: Conversation, trace: seq<Frame>): string {
    var r := RunTrace(c, Clean(trace));
    if r.Some? then r.value else c.initial
  }

  /** Own data frames carry a payload; frames of the peer have come through the wire. */
  ghost predicate Copied(role: string, trace: seq<Frame>) {
    forall i :: 0 <= i < |trace| && trace[i].Data? ==>
                  if trace[i].Author() == role then trace[i].payload.Some? else Normal(trace[i]) == trace[i]
  }

  /** Some frame of `role` leads from one state to the other. */
  ghost predicate OwnStep(c: Conversation, role: string, from: string, to: string) {
    exists f: Frame :: !f.Fault? && f.Author() == role && GlobalStep(c, from, f) == Some(to)
  }

  /** The machine stands where its trace leads and has counted its frames. */
  ghost predicate InStep(c: Conversation, role: string, s: Session) {
    Consistent(c, role, s) && (!Faulted(s.trace) ==> s.machine.sequence == |s.trace|)
  }

  /** The machine has emitted a frame that was refused, and stands one step of its own past its trace. */
  ghost predicate Overrun(c: Conversation, role: string, s: Session) {
    && Runs(c, role, s.machine)
    && RunTrace(c, s.trace).Some? && NoFault(s.trace)
    && OwnStep(c, role, RunTrace(c, s.trace).value, s.machine.current)
    && s.machine.sequence == |s.trace| + 1
  }

  ghost predicate PeerOk(c: Conversation, identity: string, role: string, p: Peer) {
    && (InStep(c, role, p.session) || (!p.live && Overrun(c, role, p.session)))
    && p.session.machine.identity == identity
    && (Faulted(p.session.trace) ==> !p.open)
    && (!p.live ==> !p.open)
    && Copied(role, p.session.trace)
  }

  /** `mine` is, without its fault, `theirs` without its fault and then what is queued in `q`. */
  ghost predicate Linked(c: Conversation, identity: string, author: string, mine: seq<Frame>, theirs: seq<Frame>,
                         q: seq<WireEnvelope>)
  {
    && NormalTrace(Clean(mine)) == NormalTrace(Clean(theirs)) + Frames(q)
    && Path(c, identity, q, Place(c, theirs), |Clean(theirs)|, author, Place(c, mine))
  }

  /** The side `lead` is ahead, or level, and nothing is queued for it. */
  ghost predicate LinkOk(c: Conversation, identity: string, sys: System, lead: Side)
    requires |c.roles| == 2
  {
    && sys.Inbox(lead) == []
    && Linked(c, identity, RoleOf(c, lead), sys.At(lead).session.trace, sys.At(lead.Other()).session.trace,
              sys.Inbox(lead.Other()))
  }

  ghost predicate Inv(c: Conversation, identity: string, sys: System)
    requires |c.roles| == 2
  {
    && PeerOk(c, identity, RoleOf(c, Left), sys.left)
    && PeerOk(c, identity, RoleOf(c, Right), sys.right)
    && (LinkOk(c, identity, sys, Left) || LinkOk(c, identity, sys, Right))
  }

  // ----- Facts about paths and places

  lemma {:induction false} PathSnoc(c: Conversation, identity: string, q: seq<WireEnvelope>, from: string, n: nat,
                                    author: string, mid: string, e: WireEnvelope)
    requires Path(c, identity, q, from, n, author, mid)
    requires e == WireEnvelope(WIRE_FORMAT, c.moduleId, identity, mid, n + |q|, e.frame)
    requires !e.frame.Fault? && e.frame.Author() == author && GlobalStep(c, mid, e.frame).Some?
    ensures Path(c, identity, q + [e], from, n, author, GlobalStep(c, mid, e.frame).value)
  {
    if |q| == 0 {
      assert q + [e] == [e];
    } else {
      assert (q + [e])[1..] == q[1..] + [e];
      PathSnoc(c, identity, q[1..], GlobalStep(c, from, q[0].frame).value, n + 1, author, mid, e);
    }
  }

  lemma StepIgnoresPayload(c: Conversation, id: string, frame: Frame)
    ensures GlobalStep(c, id, Normal(frame)) == GlobalStep(c, id, frame)
  {
  }

  /** A peer that is live and has not faulted stands at its place. */
  lemma PlaceOf(c: Conversation, identity: string, role: string, p: Peer)
    requires Sound(c) && PeerOk(c, identity, role, p)
    ensures var s := p.session;
            && RunTrace(c, Clean(s.trace)) == Some(Place(c, s.trace)) && NoFault(Clean(s.trace))
            && (p.live && !Faulted(s.trace) ==> s.machine.current == Place(c, s.trace))
            && Place(c, s.trace) in StateMap(c.states)
  {
    var s := p.session;
    if Overrun(c, role, s) {
      assert !Faulted(s.trace);
    }
    RunStaysIndexed(c, Clean(s.trace));
  }

  lemma LeadSwitch(c: Conversation, identity: string, sys: System, lead: Side)
    requires |c.roles| == 2 && LinkOk(c, identity, sys, lead) && sys.Inbox(lead.Other()) == []
    ensures LinkOk(c, identity, sys, lead.Other())
    ensures Place(c, sys.left.session.trace) == Place(c, sys.right.session.trace)
    ensures |Clean(sys.left.session.trace)| == |Clean(sys.right.session.trace)|
  {
    assert Frames([]) == [];
    var mine, theirs := Clean(sys.At(lead).session.trace), Clean(sys.At(lead.Other()).session.trace);
    assert NormalTrace(theirs) + [] == NormalTrace(theirs);
    assert |NormalTrace(mine)| == |NormalTrace(theirs)|;
  }

  /** Where the other role sends, no frame of its own can have been emitted. */
  lemma NoOverrunWithMail(c: Conversation, role: string, s: Session, frame: Frame)
    requires Sound(c) && RunTrace(c, s.trace).Some? && !frame.Fault? && frame.Author() != role
    requires GlobalStep(c, RunTrace(c, s.trace).value, frame).Some?
    ensures !Overrun(c, role, s)
  {
    var id := RunTrace(c, s.trace).value;
    forall f: Frame | !f.Fault? && GlobalStep(c, id, f).Some? ensures f.Author() != role {
      StepAuthor(c, id, frame);
      StepAuthor(c, id, f);
    }
  }

  /** The follower with mail stands at a state where the leader sends. */
  lemma FollowerReceives(c: Conversation, identity: string, sys: System, lead: Side)
    requires Sound(c) && LinkOk(c, identity, sys, lead) && sys.Inbox(lead.Other()) != []
    requires PeerOk(c, identity, RoleOf(c, lead.Other()), sys.At(lead.Other()))
    requires !Faulted(sys.At(lead.Other()).session.trace)
    ensures var m := sys.At(lead.Other()).session.machine; var e := sys.Inbox(lead.Other())[0];
            && m.Ready() && Accept(m, e).Ok?
            && (forall a :: Emit(m, a).Err?)
  {
    var follower := sys.At(lead.Other()).session;
    var m, e, role := follower.machine, sys.Inbox(lead.Other())[0], RoleOf(c, lead.Other());
    PlaceOf(c, identity, role, sys.At(lead.Other()));
    NoOverrunWithMail(c, role, follower, e.frame);
    StepIsAccepted(c, role, m, e);
    StepAuthor(c, m.current, e.frame);
    forall a ensures Emit(m, a).Err? {
      EmitIsStep(c, role, m, a);
      if Emit(m, a).Ok? { StepAuthor(c, m.current, Emit(m, a).value.envelope.frame); }
    }
  }

  // ----- Preservation: first one endpoint, then the link, then the system

  predicate Failing(event: Event) {
    match event
    case Sending(_, refusal) => refusal.Some?
    case Receiving(reply) => reply.Err?
  }

  /** The frame an Ok call records. */
  ghost function Recorded(s: Session, event: Event): Frame
    requires s.machine.Ready() && Perform(s, event).Ok?
  {
    match event
    case Sending(a, None) => Emit(s.machine, a).value.envelope.frame
    case Receiving(Ok(e)) => e.frame
    case Sending(_, Some(error)) => Fault(s.machine.endpoint.role, error.TransportFailure().value)
    case Receiving(Err(error)) => Fault(s.machine.endpoint.role, error.TransportFailure().value)
  }

  lemma RecordedIsAppended(s: Session, event: Event)
    requires s.machine.Ready() && Perform(s, event).Ok?
    ensures Perform(s, event).value.trace == s.trace + [Recorded(s, event)]
    ensures Failing(event) ==> Recorded(s, event).Fault?
  {
  }

  /** A frame a peer records is its own with a payload, or has come through the wire. */
  lemma RecordedIsCopied(c: Conversation, role: string, s: Session, event: Event)
    requires Sound(c) && Runs(c, role, s.machine) && s.machine.Ready() && Perform(s, event).Ok?
    requires event.Receiving? && event.reply.Ok? ==> Normal(event.reply.value.frame) == event.reply.value.frame
    requires Copied(role, s.trace)
    ensures Copied(role, s.trace + [Recorded(s, event)])
    ensures !Failing(event) ==> !Recorded(s, event).Fault?
  {
    match event {
      case Sending(a, refusal) => EmitIsStep(c, role, s.machine, a);
      case Receiving(reply) =>
        if reply.Ok? { AcceptIsStep(c, role, s.machine, reply.value); }
    }
  }

  /** An emit whose send is refused has moved the machine by one step of its own. */
  lemma AbandonedEmit(c: Conversation, role: string, s: Session, a: Action)
    requires Sound(c) && InStep(c, role, s)
    ensures s.machine.Ready()
    ensures Emit(s.machine, a).Ok? ==>
              Overrun(c, role, s.(machine := Emit(s.machine, a).value.machine))
  {
    hide StateMap, Find, Closed;
    EmitIsStep(c, role, s.machine, a);
    if Emit(s.machine, a).Ok? {
      var e := Emit(s.machine, a).value;
      if Faulted(s.trace) {
        FaultedIsFailed(c, s);
        FailedRefuses(c, role, s, Sending(a, None));
      }
      assert OwnStep(c, role, s.machine.current, e.machine.current);
    }
  }

  lemma PeerAfter(c: Conversation, identity: string, role: string, p: Peer, event: Event)
    requires Sound(c) && PeerOk(c, identity, role, p) && p.live
    requires event.Receiving? && event.reply.Ok? ==> Normal(event.reply.value.frame) == event.reply.value.frame
    ensures p.session.machine.Ready()
    ensures Perform(p.session, event).Err? ==>
              PeerOk(c, identity, role, Stopped(p.(session := Abandoned(p.session, event))))
    ensures Perform(p.session, event).Ok? ==>
              var s := Perform(p.session, event).value;
              && !Faulted(p.session.trace)
              && (Failing(event) ==> PeerOk(c, identity, role, p.(session := s, open := false)) &&
                                     Clean(s.trace) == Clean(p.session.trace))
              && (!Failing(event) ==> PeerOk(c, identity, role, p.(session := s)) && !Faulted(s.trace) &&
                                      s.trace == p.session.trace + [Recorded(p.session, event)])
  {
    PerformIsStep(c, role, p.session, event);
    if Perform(p.session, event).Ok? {
      RecordedIsAppended(p.session, event);
      RecordedIsCopied(c, role, p.session, event);
      assert Clean(p.session.trace) == p.session.trace;
    } else if event.Sending? {
      AbandonedEmit(c, role, p.session, event.action);
    }
  }

  lemma PushLink(c: Conversation, identity: string, author: string, mine: seq<Frame>, theirs: seq<Frame>,
                 q: seq<WireEnvelope>, e: WireEnvelope)
    requires Linked(c, identity, author, mine, theirs, q) && !Faulted(mine)
    requires RunTrace(c, mine) == Some(e.state) && GlobalStep(c, e.state, e.frame).Some?
    requires !e.frame.Fault? && e.frame.Author() == author
    requires e == WireEnvelope(WIRE_FORMAT, c.moduleId, identity, e.state, |mine|, e.frame)
    ensures Linked(c, identity, author, mine + [e.frame], theirs, q + [NormalEnvelope(e)])
  {
    var sent := NormalEnvelope(e);
    RunExtend(c, mine, e.frame);
    StepIgnoresPayload(c, e.state, e.frame);
    assert |NormalTrace(mine)| == |Clean(theirs)| + |q|;
    PathSnoc(c, identity, q, Place(c, theirs), |Clean(theirs)|, author, e.state, sent);
    assert Frames(q + [sent]) == Frames(q) + [sent.frame];
    NormalAppend(mine, [e.frame]);
    assert NormalTrace([e.frame]) == [sent.frame];
  }

  /** What is queued is normal, being part of a normalised trace. */
  lemma HeadIsNormal(c: Conversation, identity: string, author: string, mine: seq<Frame>, theirs: seq<Frame>,
                     q: seq<WireEnvelope>)
    requires Linked(c, identity, author, mine, theirs, q) && |q| > 0
    ensures Normal(q[0].frame) == q[0].frame
  {
    hide Path, RunTrace;
    var n := |Clean(theirs)|;
    assert NormalTrace(Clean(mine))[n] == Normal(Clean(mine)[n]) == Frames(q)[0];
  }

  lemma PopLink(c: Conversation, identity: string, author: string, mine: seq<Frame>, theirs: seq<Frame>,
                q: seq<WireEnvelope>)
    requires Linked(c, identity, author, mine, theirs, q) && !Faulted(theirs) && |q| > 0
    requires RunTrace(c, theirs).Some?
    ensures Linked(c, identity, author, mine, theirs + [q[0].frame], q[1..])
  {
    hide StateMap;
    var f := q[0].frame;
    HeadIsNormal(c, identity, author, mine, theirs, q);
    RunExtend(c, theirs, f);
    assert Frames(q) == [f] + Frames(q[1..]);
    NormalAppend(theirs, [f]);
    assert NormalTrace([f]) == [f];
    assert NormalTrace(theirs) + ([f] + Frames(q[1..])) == NormalTrace(theirs + [f]) + Frames(q[1..]);
  }

  /** A step that changes no clean trace and no queue keeps the link. */
  lemma LinkKept(c: Conversation, identity: string, sys: System, side: Side, p: Peer)
    requires Sound(c) && Inv(c, identity, sys)
    requires Clean(p.session.trace) == Clean(sys.At(side).session.trace)
    requires PeerOk(c, identity, RoleOf(c, side), p)
    ensures Inv(c, identity, sys.With(side, p))
  {
    hide StateMap, Find, Closed, Path, RunTrace;
    var sys' := sys.With(side, p);
    if LinkOk(c, identity, sys, Left) {
      assert LinkOk(c, identity, sys', Left);
    } else {
      assert LinkOk(c, identity, sys', Right);
    }
  }

  /** Whoever can emit leads. */
  lemma LeaderEmits(c: Conversation, identity: string, sys: System, side: Side, a: Action)
    requires Sound(c) && Inv(c, identity, sys) && sys.At(side).open && sys.At(side).session.machine.Ready()
    requires Emit(sys.At(side).session.machine, a).Ok?
    ensures LinkOk(c, identity, sys, side)
  {
    if !LinkOk(c, identity, sys, side) {
      if sys.Inbox(side) != [] {
        FollowerReceives(c, identity, sys, side.Other());
      } else {
        LeadSwitch(c, identity, sys, side.Other());
      }
    }
  }

  lemma SendKeeps(c: Conversation, identity: string, sys: System, side: Side, a: Action, w: Weather)
    requires Sound(c) && Inv(c, identity, sys) && sys.At(side).live
    ensures sys.At(side).session.machine.Ready() && Inv(c, identity, DoSend(sys, side, a, w))
  {
    hide StateMap, Find, Closed, Path, RunTrace;
    var p, role := sys.At(side), RoleOf(c, side);
    var event := Sending(a, SendRefusal(sys, side, w));
    PeerAfter(c, identity, role, p, event);
    match Perform(p.session, event) {
      case Err(_) => LinkKept(c, identity, sys, side, Stopped(p.(session := Abandoned(p.session, event))));
      case Ok(s) =>
        if Failing(event) {
          LinkKept(c, identity, sys, side, p.(session := s, open := false));
        } else {
          EmitIsStep(c, role, p.session.machine, a);
          LeaderEmits(c, identity, sys, side, a);
          PushLink(c, identity, role, p.session.trace, sys.At(side.Other()).session.trace, sys.Inbox(side.Other()),
                   Emit(p.session.machine, a).value.envelope);
          assert LinkOk(c, identity, DoSend(sys, side, a, w), side);
        }
    }
  }

  /** A receive that takes the head of the queue. */
  lemma TakeKeeps(c: Conversation, identity: string, sys: System, side: Side)
    requires Sound(c) && Inv(c, identity, sys) && sys.At(side).live && sys.Inbox(side) != []
    ensures var p, e := sys.At(side), sys.Inbox(side)[0];
            && p.session.machine.Ready()
            && (Perform(p.session, Receiving(Ok(e))).Ok? ==>
                  Inv(c, identity, sys.With(side, p.(session := Perform(p.session, Receiving(Ok(e))).value))
                                      .WithInbox(side, sys.Inbox(side)[1..])))
  {
    hide StateMap, Find, Closed, Path, Accept, Linked, Perform, RunTrace, Copied, RecordReceive;
    var p, q, lead := sys.At(side), sys.Inbox(side), side.Other();
    var event := Receiving(Ok(q[0]));
    HeadIsNormal(c, identity, RoleOf(c, lead), sys.At(lead).session.trace, p.session.trace, q);
    PeerAfter(c, identity, RoleOf(c, side), p, event);
    if Perform(p.session, event).Ok? {
      var s := Perform(p.session, event).value;
      PopLink(c, identity, RoleOf(c, lead), sys.At(lead).session.trace, p.session.trace, q);
      assert LinkOk(c, identity, sys.With(side, p.(session := s)).WithInbox(side, q[1..]), lead);
    }
  }

  lemma PeerIsReady(c: Conversation, identity: string, role: string, p: Peer)
    requires Sound(c) && PeerOk(c, identity, role, p)
    ensures p.session.machine.Ready()
  {
    LocalIsProjected(c, role, p.session.machine);
  }

  lemma ReceiveKeeps(c: Conversation, identity: string, sys: System, side: Side, w: Weather)
    requires Sound(c) && Inv(c, identity, sys) && sys.At(side).live
    ensures sys.At(side).session.machine.Ready()
    ensures DoReceive(sys, side, w).Some? ==> Inv(c, identity, DoReceive(sys, side, w).value)
  {
    hide StateMap, Find, Closed, Path, RunTrace, Accept, LinkOk, Perform;
    var p, role := sys.At(side), RoleOf(c, side);
    PeerIsReady(c, identity, role, p);
    if ReceiveReply(sys, side, w).Some? {
      var reply := ReceiveReply(sys, side, w).value;
      if reply.Ok? { TakeKeeps(c, identity, sys, side); }
      else { PeerAfter(c, identity, role, p, Receiving(reply)); }
      match Perform(p.session, Receiving(reply)) {
        case Err(_) => LinkKept(c, identity, sys, side, Stopped(p));
        case Ok(s) =>
          if reply.Err? {
            LinkKept(c, identity, sys, side, p.(session := s, open := false));
          }
      }
    }
  }

  lemma ConsistentPeer(c: Conversation, identity: string, sys: System, side: Side)
    requires |c.roles| == 2 && Inv(c, identity, sys) && sys.At(side).live
    ensures Consistent(c, RoleOf(c, side), sys.At(side).session)
  {
    hide Consistent, Overrun, LinkOk;
  }

  lemma StepKeeps(c: Conversation, identity: string, sys: System, act: Act)
    requires Sound(c) && Inv(c, identity, sys) && Step(sys, act).Some?
    ensures Inv(c, identity, Step(sys, act).value)
  {
    match act {
      case Drop(side) => LinkKept(c, identity, sys, side, sys.At(side).(open := false));
      case Do(side, Emits(a), w) => SendKeeps(c, identity, sys, side, a, w);
      case Do(side, Receives, w) => ReceiveKeeps(c, identity, sys, side, w);
    }
  }

  lemma {:induction false} ReachableInv(c: Conversation, identity: string, planIdentity: string, acts: seq<Act>)
    requires Sound(c) && After(Start(c, identity, planIdentity), acts).Some?
    ensures Inv(c, identity, After(Start(c, identity, planIdentity), acts).value)
  {
    var start := Start(c, identity, planIdentity);
    if |acts| == 0 {
      assert Frames([]) == [];
      assert LinkOk(c, identity, start, Left);
    } else {
      ReachableInv(c, identity, planIdentity, acts[..|acts| - 1]);
      StepKeeps(c, identity, After(start, acts[..|acts| - 1]).value, acts[|acts| - 1]);
    }
  }

  lemma StartInv(c: Conversation, identity: string, planIdentity: string)
    requires Sound(c)
    ensures var start := Start(c, identity, planIdentity);
            && Inv(c, identity, start)
            && start.left.session.trace == start.right.session.trace == []
            && start.left.session.machine.current == start.right.session.machine.current == c.initial
            && start.left.open && start.left.live && start.right.open && start.right.live
  {
    ReachableInv(c, identity, planIdentity, []);
  }

  // ----- Reading off what a step did

  /** The event a call amounts to, when it does not block. */
  function EventAt(sys: System, side: Side, call: Call, w: Weather): Option<Event> {
    match call
    case Emits(a) => Some(Sending(a, SendRefusal(sys, side, w)))
    case Receives => match ReceiveReply(sys, side, w) { case None => None case Some(reply) => Some(Receiving(reply)) }
  }

  /** A step leaves the other peer alone and gives its own the session that `Perform` says, or stops it. */
  lemma StepPerforms(sys: System, side: Side, call: Call, w: Weather)
    requires Step(sys, Do(side, call, w)).Some?
    ensures var next := Step(sys, Do(side, call, w)).value;
            && sys.At(side).live && sys.At(side).session.machine.Ready() && EventAt(sys, side, call, w).Some?
            && next.At(side.Other()) == sys.At(side.Other())
            && match Perform(sys.At(side).session, EventAt(sys, side, call, w).value)
               case Err(_) => !next.At(side).live &&
                              next.At(side).session == Abandoned(sys.At(side).session, EventAt(sys, side, call, w).value)
               case Ok(s) => next.At(side).session == s && next.At(side).live &&
                             (!Failing(EventAt(sys, side, call, w).value) ==> next.At(side).open == sys.At(side).open)
  {
    hide Perform, Find, Closed, Emit;
  }

  lemma StepIsEnabled(sys: System, side: Side, call: Call, w: Weather)
    requires sys.At(side).live && sys.At(side).session.machine.Ready() && EventAt(sys, side, call, w).Some?
    ensures Step(sys, Do(side, call, w)).Some?
  {
    hide Perform, Find, Closed, Emit;
  }

  /** Next to a peer that stands at a terminal state, one has mail or stands there too. */
  lemma TerminalPeer(c: Conversation, identity: string, sys: System, side: Side)
    requires Sound(c) && Inv(c, identity, sys)
    requires !Faulted(sys.left.session.trace) && !Faulted(sys.right.session.trace) && sys.left.live && sys.right.live
    requires sys.At(side.Other()).session.machine.current in StateMap(c.states)
    requires StateMap(c.states)[sys.At(side.Other()).session.machine.current].Terminal()
    ensures sys.Inbox(side) != [] || sys.At(side).session.machine.current == sys.At(side.Other()).session.machine.current
    ensures sys.Inbox(side.Other()) == []
  {
    hide Find, Closed, Path;
    var other := side.Other();
    PlaceOf(c, identity, RoleOf(c, Left), sys.left);
    PlaceOf(c, identity, RoleOf(c, Right), sys.right);
    if sys.Inbox(other) != [] {
      FollowerReceives(c, identity, sys, side);
      AcceptIsStep(c, RoleOf(c, other), sys.At(other).session.machine, sys.Inbox(other)[0]);
    } else if sys.Inbox(side) == [] {
      if LinkOk(c, identity, sys, Left) { LeadSwitch(c, identity, sys, Left); }
      else { LeadSwitch(c, identity, sys, Right); }
    }
  }

  /** The head of a queue is the next frame of its writer, as read from the wire. */
  lemma HeadIsSent(c: Conversation, identity: string, sys: System, lead: Side)
    requires |c.roles| == 2 && LinkOk(c, identity, sys, lead) && sys.Inbox(lead.Other()) != []
    ensures var mine, k := Clean(sys.At(lead).session.trace), |Clean(sys.At(lead.Other()).session.trace)|;
            k < |mine| && sys.Inbox(lead.Other())[0].frame == Normal(mine[k])
    ensures sys.Inbox(lead.Other())[0].frame.Author() == RoleOf(c, lead)
  {
    hide RunTrace;
    var mine, theirs := Clean(sys.At(lead).session.trace), Clean(sys.At(lead.Other()).session.trace);
    var q := sys.Inbox(lead.Other());
    assert |NormalTrace(mine)| == |theirs| + |q|;
    assert NormalTrace(mine)[|theirs|] == Frames(q)[0];
  }
}
