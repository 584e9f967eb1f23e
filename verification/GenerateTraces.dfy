/**
 The frames that the two Generate loops record, one by one: the prompt as it was
 given, the tokens in order, and the choices between them.
 */
module GenerateTraces {
  import opened Basics
  import opened Conversations
  import opened Traces
  import opened Projection
  import opened Machines
  import opened Sessions
  import opened Systems
  import opened Agreement
  import opened ClientServer
  import opened GenerateLoops
  import opened GenerateRuns
  import opened GenerateTheorems

  // ----- The story a trace tells

  /** The prompt frame of a text, and the frame of a token. */
  function Prompt(text: string): Frame { Data("client", "server", "prompt", Some(Obj(map["text" := Str(text)]))) }

  function Token(id: nat): Frame { Data("server", "client", "token", Some(Obj(map["id" := Number(id)]))) }

  predicate Addressed(f: Frame, from: string, to: string, message: string) {
    f.Data? && f.from == from && f.to == to && f.message == message
  }

  /** One frame of an uncancelled exchange; frames of the other role are known up to their payload. */
  ghost predicate Beat(role: string, text: string, i: nat, f: Frame) {
    && (i == 0 ==> Addressed(f, "client", "server", "prompt") && (role == "client" ==> f == Prompt(text)))
    && (i % 3 == 1 ==> f == Frame.Select("server", "token"))
    && (i % 3 == 2 ==> Addressed(f, "server", "client", "token") && (role == "server" ==> f == Token(i / 3 + 1)))
    && (i > 0 && i % 3 == 0 ==> f == Frame.Select("client", "continue"))
  }

  ghost predicate Steady(role: string, text: string, t: seq<Frame>) {
    forall i :: 0 <= i < |t| ==> Beat(role, text, i, t[i])
  }

  /** A steady trace with the client's choice to cancel at its end. */
  ghost predicate Cancelling(role: string, text: string, t: seq<Frame>) {
    && |t| > 1 && |t| % 3 == 1
    && Steady(role, text, t[..|t| - 1]) && t[|t| - 1] == Frame.Select("client", "cancel")
  }

  ghost predicate Ended(n: Names, role: string, text: string, t: seq<Frame>) {
    && |t| > 1 && |t| % 3 == 2
    && (|| (Steady(role, text, t[..|t| - 1]) && t[|t| - 1] == Frame.Select("server", "done"))
        || (Cancelling(role, text, t[..|t| - 1]) && t[|t| - 1] == Frame.Cancel("client", "server", n.scope)))
  }

  /** The trace of a session at state `id`. */
  ghost predicate StoryAt(n: Names, role: string, text: string, id: string, t: seq<Frame>) {
    || (id == n.start && |t| == 0)
    || (id == n.decide && |t| % 3 == 1 && Steady(role, text, t))
    || (id == n.emit && |t| % 3 == 2 && Steady(role, text, t))
    || (id == n.action && |t| > 0 && |t| % 3 == 0 && Steady(role, text, t))
    || (id == n.cancel && Cancelling(role, text, t))
    || (id == n.end && Ended(n, role, text, t))
  }

  /** The first frame of a story is the prompt. */
  lemma StoryStarts(n: Names, role: string, text: string, id: string, t: seq<Frame>)
    requires StoryAt(n, role, text, id, t) && |t| > 0
    ensures Beat(role, text, 0, t[0])
  {
    if id == n.end && Ended(n, role, text, t) {
      assert t[..|t| - 1][0] == t[0];
      if Cancelling(role, text, t[..|t| - 1]) { assert t[..|t| - 1][..|t| - 2][0] == t[0]; }
    }
    if Cancelling(role, text, t) { assert t[..|t| - 1][0] == t[0]; }
  }

  lemma NothingIsSteady(role: string, text: string)
    ensures Steady(role, text, [])
  {
  }

  lemma SteadyExtends(role: string, text: string, t: seq<Frame>, f: Frame)
    requires Steady(role, text, t) && Beat(role, text, |t|, f)
    ensures Steady(role, text, t + [f])
  {
  }

  /** The states of the protocol differ. */
  ghost predicate Distinct(n: Names) {
    && n.start !in {n.decide, n.emit, n.action, n.cancel, n.end}
    && n.decide !in {n.emit, n.action, n.cancel, n.end}
    && n.emit !in {n.action, n.cancel, n.end}
    && n.action !in {n.cancel, n.end} && n.cancel != n.end
  }

  lemma ShapedIsDistinct(c: Conversation, n: Names)
    requires Shaped(c, n)
    ensures Distinct(n)
  {
    hide StateMap, Sound;
    LabelsDiffer();
  }

  /** Own data frames are exactly what the loop puts into them. */
  ghost predicate OwnData(role: string, text: string, i: nat, f: Frame) {
    f.Data? && f.from == role ==> if role == "client" then f == Prompt(text) else f == Token(i / 3 + 1)
  }

  /** One more frame continues the story. */
  lemma StoryGoesOn(n: Names, role: string, text: string, id: string, t: seq<Frame>, f: Frame, next: string, complete: bool)
    requires Distinct(n) && StoryAt(n, role, text, id, t) && id != n.end && (role == "client" || role == "server")
    requires Edge(n, id, f, next, complete) && OwnData(role, text, |t|, f)
    ensures StoryAt(n, role, text, next, t + [f])
  {
    hide Steady;
    RolesDiffer();
    assert (t + [f])[..|t|] == t;
    if id == n.start {
      assert Beat(role, text, 0, f);
      NothingIsSteady(role, text);
      SteadyExtends(role, text, t, f);
    } else if next == n.emit || next == n.action || next == n.decide {
      assert Beat(role, text, |t|, f);
      SteadyExtends(role, text, t, f);
    }
  }

  // ----- Every run tells the story

  /** A session, without the fault that may end it, tells its role's story up to its place. */
  ghost predicate Tells(c: Conversation, n: Names, role: string, text: string, s: Session) {
    StoryAt(n, role, text, Place(c, s.trace), Clean(s.trace))
  }

  ghost predicate Stories(c: Conversation, n: Names, p: Params, g: Loops) {
    && (!g.client.pc.ClientRejected? ==> Tells(c, n, "client", p.text, g.sys.left.session))
    && (!g.server.pc.ServerRejected? ==> Tells(c, n, "server", p.text, g.sys.right.session))
  }

  /** A successful call of a session that is not at the end continues its story. */
  lemma CallTells(c: Conversation, n: Names, role: string, text: string, s: Session, event: Event)
    requires Shaped(c, n) && (role == "client" || role == "server") && Consistent(c, role, s) && Tells(c, n, role, text, s)
    requires !Faulted(s.trace) ==> s.machine.current != n.end
    requires s.machine.Ready() && Perform(s, event).Ok?
    requires !Failing(event) ==> OwnData(role, text, |s.trace|, Recorded(s, event))
    ensures Tells(c, n, role, text, Perform(s, event).value)
  {
    hide StateMap, Sound, Shaped, Perform, Find, Closed, StoryAt, Edge, OwnData, RunTrace;
    ShapedSides(c, n);
    ShapedIsDistinct(c, n);
    CallRecords(c, role, s, event);
    var s', f := Perform(s, event).value, Recorded(s, event);
    CleanOfFault(s.trace, f);
    if !f.Fault? {
      ShapedStep(c, n, s.machine.current, f);
      StoryGoesOn(n, role, text, s.machine.current, s.trace, f, s'.machine.current,
                  StateMap(c.states)[s'.machine.current].Terminal());
    }
  }

  /** The data frames a client sends are its prompt. */
  lemma ClientData(c: Conversation, n: Names, p: Params, k: Client, s: Session, event: Event)
    requires Shaped(c, n) && Consistent(c, "client", s) && ClientAt(n, p, k, s.machine.current, s.trace) && !k.Done()
    requires s.machine.Ready() && Perform(s, event).Ok? && !Failing(event) && IsClientCall(p, k, event)
    ensures OwnData("client", p.text, |s.trace|, Recorded(s, event))
  {
    hide StateMap, Sound, Perform, Find, Closed, RunTrace;
    ShapedSides(c, n);
    CallRecords(c, "client", s, event);
    StepStaysIndexed(c, s.machine.current, Recorded(s, event));
    ShapedStep(c, n, s.machine.current, Recorded(s, event));
    LabelsDiffer();
    ShapedIsDistinct(c, n);
  }

  /** The data frames a server sends are its tokens, in order. */
  lemma ServerData(c: Conversation, n: Names, p: Params, k: Server, s: Session, event: Event)
    requires Shaped(c, n) && Consistent(c, "server", s) && ServerAt(n, p, k, s.machine.current, s.trace) && !k.Done()
    requires s.machine.Ready() && Perform(s, event).Ok? && !Failing(event) && IsServerCall(k, event)
    ensures OwnData("server", p.text, |s.trace|, Recorded(s, event))
  {
    hide StateMap, Sound, Perform, Find, Closed, RunTrace;
    ShapedSides(c, n);
    CallRecords(c, "server", s, event);
    StepStaysIndexed(c, s.machine.current, Recorded(s, event));
    ShapedStep(c, n, s.machine.current, Recorded(s, event));
    LabelsDiffer();
    ShapedIsDistinct(c, n);
  }

  lemma RunningIsNotAtEnd(c: Conversation, n: Names, p: Params, g: Loops, side: Side)
    requires Shaped(c, n) && !g.DoneAt(side)
    requires if side == Left then ClientOk(n, p, g.client, g.sys.left.session) else ServerOk(n, p, g.server, g.sys.right.session)
    ensures !Faulted(g.sys.At(side).session.trace) && g.sys.At(side).session.machine.current != n.end
  {
    hide Shaped;
    ShapedIsDistinct(c, n);
  }

  lemma ClientTickTells(c: Conversation, n: Names, p: Params, identity: string, g: Loops, w: Weather)
    requires LoopsOk(c, n, p, identity, g) && Stories(c, n, p, g) && TickOf(p, g, Next(Left, w)).Some?
    ensures var g' := TickOf(p, g, Next(Left, w)).value;
            !g'.client.pc.ClientRejected? ==> Tells(c, n, "client", p.text, g'.sys.left.session)
  {
    hide Shaped, Step, Perform, Find, Closed, RunTrace, StateMap, ClientThen, ReplyAt, Tells, ClientAt, Inv, OwnData;
    ShapedSides(c, n);
    var call, s := CallOf(p, g, Left), g.sys.left.session;
    StepPerforms(g.sys, Left, call, w);
    ReplyIsEvent(g.sys, Left, call, w);
    ConsistentPeer(c, identity, g.sys, Left);
    RunningIsNotAtEnd(c, n, p, g, Left);
    var event := EventAt(g.sys, Left, call, w).value;
    if Perform(s, event).Ok? {
      if !Failing(event) { ClientData(c, n, p, g.client, s, event); }
      CallTells(c, n, "client", p.text, s, event);
    }
  }

  lemma ServerTickTells(c: Conversation, n: Names, p: Params, identity: string, g: Loops, w: Weather)
    requires LoopsOk(c, n, p, identity, g) && Stories(c, n, p, g) && TickOf(p, g, Next(Right, w)).Some?
    ensures var g' := TickOf(p, g, Next(Right, w)).value;
            !g'.server.pc.ServerRejected? ==> Tells(c, n, "server", p.text, g'.sys.right.session)
  {
    hide Shaped, Step, Perform, Find, Closed, RunTrace, StateMap, ServerThen, ReplyAt, Tells, ServerAt, Inv, OwnData;
    ShapedSides(c, n);
    var call, s := CallOf(p, g, Right), g.sys.right.session;
    StepPerforms(g.sys, Right, call, w);
    ReplyIsEvent(g.sys, Right, call, w);
    ConsistentPeer(c, identity, g.sys, Right);
    RunningIsNotAtEnd(c, n, p, g, Right);
    var event := EventAt(g.sys, Right, call, w).value;
    if Perform(s, event).Ok? {
      if !Failing(event) { ServerData(c, n, p, g.server, s, event); }
      CallTells(c, n, "server", p.text, s, event);
    }
  }

  lemma TickTells(c: Conversation, n: Names, p: Params, identity: string, g: Loops, tick: Tick)
    requires LoopsOk(c, n, p, identity, g) && Stories(c, n, p, g) && TickOf(p, g, tick).Some?
    ensures Stories(c, n, p, TickOf(p, g, tick).value)
  {
    hide LoopsOk, Tells, ClientNext, ServerNext, ReplyAt, Step, Find, Closed;
    TickIsCall(p, g, tick);
    if tick.Next? {
      if tick.side == Left { ClientTickTells(c, n, p, identity, g, tick.weather); }
      else { ServerTickTells(c, n, p, identity, g, tick.weather); }
    }
  }

  lemma BeginTells(c: Conversation, n: Names, p: Params, identity: string, planIdentity: string)
    requires Shaped(c, n)
    ensures Stories(c, n, p, Begin(c, p, identity, planIdentity))
  {
    hide StateMap, Sound, IsSend, IsChoice, IsCancel, Project;
    ShapedSides(c, n);
  }

  lemma ReachableTells(c: Conversation, n: Names, p: Params, identity: string, planIdentity: string, run: seq<Loops>, ticks: seq<Tick>)
    requires Shaped(c, n) && p.limit < U64_LIMIT && IsRun(p, run, ticks) && run[0] == Begin(c, p, identity, planIdentity)
    ensures LoopsOk(c, n, p, identity, run[|ticks|]) && Stories(c, n, p, run[|ticks|])
  {
    hide LoopsOk, Stories, TickOf, Shaped, Begin;
    BeginOk(c, n, p, identity, planIdentity);
    BeginTells(c, n, p, identity, planIdentity);
    for i := 0 to |ticks|
      invariant LoopsOk(c, n, p, identity, run[i]) && Stories(c, n, p, run[i])
    {
      assert TickOf(p, run[i], ticks[i]) == Some(run[i + 1]);
      TickTells(c, n, p, identity, run[i], ticks[i]);
      TickKeeps(c, n, p, identity, run[i], ticks[i]);
    }
  }

  // ----- The prompt arrives

  /** A client's first frame, unless it is a fault, is its prompt. */
  lemma ClientStarts(c: Conversation, n: Names, p: Params, g: Loops)
    requires Stories(c, n, p, g) && !g.client.pc.ClientRejected? && |Clean(g.sys.left.session.trace)| > 0
    ensures Clean(g.sys.left.session.trace)[0] == Prompt(p.text)
  {
    hide StoryAt, Place;
    var s := g.sys.left.session;
    StoryStarts(n, "client", p.text, Place(c, s.trace), Clean(s.trace));
  }

  /** What the server has received first is what the client has sent first. */
  lemma ServerStarts(c: Conversation, n: Names, p: Params, identity: string, g: Loops)
    requires LoopsOk(c, n, p, identity, g) && Stories(c, n, p, g)
    requires !g.client.pc.ClientRejected? && !g.server.pc.ServerRejected? && |Clean(g.sys.right.session.trace)| > 0
    ensures Clean(g.sys.right.session.trace)[0] == Prompt(p.text)
  {
    hide StoryAt, Place, Shaped, Path, ClientAt, ServerAt, RunTrace, StateMap, TokenIds, Answered, GoodData;
    ShapedSides(c, n);
    RolesDiffer();
    var l, r := Clean(g.sys.left.session.trace), Clean(g.sys.right.session.trace);
    StoryStarts(n, "server", p.text, Place(c, g.sys.right.session.trace), r);
    var lead := if LinkOk(c, identity, g.sys, Left) then Left else Right;
    LinkIsAhead(c, identity, g.sys, lead);
    ClientStarts(c, n, p, g);
    assert NormalTrace(l)[0] == NormalTrace(r)[0];
    assert r[0] == g.sys.right.session.trace[0];
  }

  /**
   The prompt is sent as it was given and received as it was sent: in every run, under
   any injected failures, the first frame of a report's trace that is not a fault.
   */
  lemma PromptIsDelivered(c: Conversation, n: Names, p: Params, identity: string, planIdentity: string,
                          run: seq<Loops>, ticks: seq<Tick>, client: Report)
    requires Shaped(c, n) && p.limit < U64_LIMIT && IsRun(p, run, ticks) && run[0] == Begin(c, p, identity, planIdentity)
    requires ClientReturns(c, p, identity, planIdentity, run, ticks, Reported(client))
    ensures client.trace != [] && !client.trace[0].Fault? ==>
              client.trace[0] == Data("client", "server", "prompt", Some(Obj(map["text" := Str(p.text)])))
    ensures forall server ::
              ServerReturns(c, p, identity, planIdentity, run, ticks, Reported(server)) && server.trace != [] && !server.trace[0].Fault? ==>
              server.trace[0] == Data("client", "server", "prompt", Some(Obj(map["text" := Str(p.text)])))
  {
    hide Shaped, LoopsOk, Stories, Begin, TickOf, ClientReturns, ServerReturns;
    RunReturns(c, n, p, identity, planIdentity, run, ticks);
    ReachableTells(c, n, p, identity, planIdentity, run, ticks);
    var g := run[|ticks|];
    if |Clean(g.sys.left.session.trace)| > 0 { ClientStarts(c, n, p, g); }
    if !g.server.pc.ServerRejected? && |Clean(g.sys.right.session.trace)| > 0 { ServerStarts(c, n, p, identity, g); }
  }
}
