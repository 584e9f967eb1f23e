/**
 The Generate client and server loops running against each other over the
 in-memory transport, in every schedule: the closed form without faults and the
 token loss bound with faults.
 */
module GenerateRuns {
  import opened Basics
  import opened Conversations
  import opened Traces
  import opened Projection
  import opened Machines
  import opened Sessions
  import opened Systems
  import opened Agreement
  import opened ClientServer
  import opened GenerateLoops

  /** The state ids and the cancellation scope of a conversation shaped like the example; the loops never see them. */
  datatype Names = Names(start: string, decide: string, emit: string, action: string, cancel: string, end: string, scope: string)

  /** The protocol of the example, up to the names of its states and its failure edges. */
  ghost predicate Shaped(c: Conversation, n: Names) {
    && ClientAndServer(c)
    && c.initial == n.start
    && IsSend(c, n.start, "client", "server", "prompt", n.decide)
    && IsChoice(c, n.decide, "server", map["token" := n.emit, "done" := n.end])
    && IsSend(c, n.emit, "server", "client", "token", n.action)
    && IsChoice(c, n.action, "client", map["continue" := n.decide, "cancel" := n.cancel])
    && IsCancel(c, n.cancel, "client", "server", n.scope, n.end)
    && n.end in StateMap(c.states) && StateMap(c.states)[n.end].End?
  }

  lemma ShapedSides(c: Conversation, n: Names)
    requires Shaped(c, n)
    ensures ClientAndServer(c) && Sound(c) && "client" in c.roles && "server" in c.roles && "client" != "server"
    ensures forall side: Side :: RoleOf(c, side) == RoleName(side)
  {
    hide StateMap, Sound;
    TwoSides(c);
  }

  /** What the two loops are called with. */
  datatype Params = Params(text: string, limit: nat, cancelAfter: Option<nat>)

  /** The two-endpoint system with the control of both loops; the client is the left side. */
  datatype Loops = Loops(sys: System, client: Client, server: Server)
  {
    predicate DoneAt(side: Side) { if side == Left then client.Done() else server.Done() }
  }

  function CallOf(p: Params, g: Loops, side: Side): Call {
    if side == Left then
      if g.client.Sending() then Emits(ClientAction(g.client.pc, p.text)) else Receives
    else
      if g.server.Sending() then Emits(ServerAction(g.server)) else Receives
  }

  /** One step: a loop makes its next call in some weather, or a finished loop drops its transport. */
  datatype Tick = Next(side: Side, weather: Weather) | Retire(side: Side)

  /** The control of both loops after the next call of one side. */
  ghost function Advanced(p: Params, g: Loops, side: Side, w: Weather): Loops
    requires g.sys.At(side).session.machine.Ready()
  {
    var reply := ReplyAt(g.sys, side, CallOf(p, g, side), w);
    if side == Left
    then g.(client := ClientNext(p.cancelAfter, p.text, ClientRun(g.client, g.sys.left.session), reply).control)
    else g.(server := ServerNext(p.limit, ServerRun(g.server, g.sys.right.session), reply).control)
  }

  ghost function TickOf(p: Params, g: Loops, tick: Tick): Option<Loops> {
    match tick
    case Retire(side) => if g.DoneAt(side) && g.sys.At(side).open then Some(g.(sys := Step(g.sys, Drop(side)).value)) else None
    case Next(side, w) =>
      if g.DoneAt(side) || !g.sys.At(side).session.machine.Ready() then None
      else match Step(g.sys, Do(side, CallOf(p, g, side), w))
           case None => None
           case Some(sys) => Some(Advanced(p, g, side, w).(sys := sys))
  }

  /** A run of both loops: the configurations between the steps. */
  ghost predicate IsRun(p: Params, run: seq<Loops>, ticks: seq<Tick>) {
    |run| == |ticks| + 1 && forall i :: 0 <= i < |ticks| ==> TickOf(p, run[i], ticks[i]) == Some(run[i + 1])
  }

  function Begin(c: Conversation, p: Params, identity: string, planIdentity: string): Loops
    requires |c.roles| == 2
  {
    Loops(Start(c, identity, planIdentity), ClientStart(p.cancelAfter), Server(AwaitPrompt, []))
  }

  // ----- Each side of a run is its loop, run against the answers it met

  /** The answers that the calls of one side have met. */
  ghost function Script(p: Params, run: seq<Loops>, ticks: seq<Tick>, side: Side): seq<Reply>
    requires |run| == |ticks| + 1
    decreases |ticks|
  {
    if |ticks| == 0 then []
    else
      var n := |ticks| - 1;
      Script(p, run[..n + 1], ticks[..n], side) +
      if ticks[n].Next? && ticks[n].side == side
      then [ReplyAt(run[n].sys, side, CallOf(p, run[n], side), ticks[n].weather)]
      else []
  }

  function ClientOf(g: Loops): ClientRun { ClientRun(g.client, g.sys.left.session) }

  function ServerOf(g: Loops): ServerRun { ServerRun(g.server, g.sys.right.session) }

  /** A step of a run is one call of the loop whose turn it is, and nothing for the other loop. */
  lemma TickIsCall(p: Params, g: Loops, tick: Tick)
    requires TickOf(p, g, tick).Some?
    ensures var g' := TickOf(p, g, tick).value;
            match tick
            case Retire(_) => ClientOf(g') == ClientOf(g) && ServerOf(g') == ServerOf(g)
            case Next(side, w) =>
              var reply := ReplyAt(g.sys, side, CallOf(p, g, side), w);
              && !g.DoneAt(side) && g.sys.At(side).session.machine.Ready()
              && ClientOf(g') == (if side == Left then ClientNext(p.cancelAfter, p.text, ClientOf(g), reply) else ClientOf(g))
              && ServerOf(g') == (if side == Right then ServerNext(p.limit, ServerOf(g), reply) else ServerOf(g))
  {
    hide Perform, Find, Closed, ClientThen, ServerThen, Step, ReplyAt, Abandoned;
    match tick {
      case Retire(side) => DropStep(g.sys, side);
      case Next(side, w) =>
        StepPerforms(g.sys, side, CallOf(p, g, side), w);
        ReplyIsEvent(g.sys, side, CallOf(p, g, side), w);
        PerformReady(g.sys.At(side).session, EventAt(g.sys, side, CallOf(p, g, side), w).value);
    }
  }

  lemma NoMoreAnswers(p: Params, run: seq<Loops>, ticks: seq<Tick>, side: Side)
    requires |run| == |ticks| + 1 && |ticks| > 0
    ensures var n := |ticks| - 1;
            !(ticks[n].Next? && ticks[n].side == side) ==>
              Script(p, run, ticks, side) == Script(p, run[..n + 1], ticks[..n], side)
  {
  }

  /** Each side of a run stands where its loop stands after the answers it met. */
  lemma {:induction false} RunIsLoops(p: Params, run: seq<Loops>, ticks: seq<Tick>)
    requires IsRun(p, run, ticks)
    ensures ClientOver(p.cancelAfter, p.text, ClientOf(run[0]), Script(p, run, ticks, Left)) == ClientOf(run[|ticks|])
    ensures ServerOver(p.limit, ServerOf(run[0]), Script(p, run, ticks, Right)) == ServerOf(run[|ticks|])
    decreases |ticks|
  {
    hide TickOf, ClientNext, ServerNext, Find, Closed, ReplyAt;
    if |ticks| == 0 {
    } else {
      var n := |ticks| - 1;
      var before, last := run[..n + 1], ticks[..n];
      assert IsRun(p, before, last);
      RunIsLoops(p, before, last);
      assert TickOf(p, run[n], ticks[n]) == Some(run[n + 1]);
      TickIsCall(p, run[n], ticks[n]);
      if ticks[n].Next? {
        var reply := ReplyAt(run[n].sys, ticks[n].side, CallOf(p, run[n], ticks[n].side), ticks[n].weather);
        ClientOverSnoc(p.cancelAfter, p.text, ClientOf(run[0]), Script(p, before, last, Left), reply);
        ServerOverSnoc(p.limit, ServerOf(run[0]), Script(p, before, last, Right), reply);
      }
      NoMoreAnswers(p, run, ticks, Left);
      NoMoreAnswers(p, run, ticks, Right);
    }
  }

  // ----- What each loop keeps, whatever the transport does

  /** The token ids among the data frames of a trace. */
  function TokenIds(t: seq<Frame>): seq<nat> {
    if |t| == 0 then []
    else TokenIds(t[..|t| - 1]) +
         match TokenIdOf(t[|t| - 1]) { case Some(id) => [id] case None => [] }
  }

  lemma TokenIdsExtend(t: seq<Frame>, f: Frame)
    ensures TokenIds(t + [f]) == TokenIds(t) + match TokenIdOf(f) { case Some(id) => [id] case None => [] }
  {
    assert (t + [f])[..|t|] == t;
  }

  function CountTo(n: nat): (r: seq<nat>)
    ensures |r| == n
  {
    seq(n, i requires 0 <= i < n => i + 1)
  }

  /** A token frame is followed by a frame of the client. */
  ghost predicate Answered(t: seq<Frame>) {
    forall i :: 0 <= i < |t| - 1 && TokenIdOf(t[i]).Some? ==> t[i + 1].Author() == "client"
  }

  /** Own data frames carry what the loop puts there. */
  ghost predicate GoodData(role: string, t: seq<Frame>) {
    forall i :: 0 <= i < |t| && t[i].Data? && t[i].Author() == role ==>
                  if role == "client" then HasPrompt(t[i]) else TokenIdOf(t[i]).Some?
  }

  ghost predicate Cancels(cancelAfter: Option<nat>, tokens: nat) {
    cancelAfter.Some? && tokens >= cancelAfter.value
  }

  /** Where the client stands: its state, how many frames it has recorded, and its tokens against the cancel point. */
  ghost predicate ClientAt(n: Names, p: Params, k: Client, current: string, t: seq<Frame>) {
    var m, len := |k.tokens|, |t|;
    match k.pc
    case SendPrompt => current == n.start && len == 0 && m == 0 && p.cancelAfter != Some(0)
    case AwaitChoice => current == n.decide && len == 3 * m + 1 && !Cancels(p.cancelAfter, m)
    case AwaitToken => current == n.emit && len == 3 * m + 2 && !Cancels(p.cancelAfter, m)
    case SendContinue => current == n.action && m > 0 && len == 3 * m && !Cancels(p.cancelAfter, m)
    case SendCancelChoice => current == n.action && m > 0 && len == 3 * m && p.cancelAfter == Some(m)
    case SendCancel => current == n.cancel && m > 0 && len == 3 * m + 1 && p.cancelAfter == Some(m)
    case ClientReturned => current == n.end && len == 3 * m + 2 &&
                           (t[len - 1].Select? ==> !Cancels(p.cancelAfter, m)) &&
                           (t[len - 1].Cancel? ==> p.cancelAfter == Some(m))
    case ClientRejected => false
  }

  ghost predicate ServerAt(n: Names, p: Params, k: Server, current: string, t: seq<Frame>) {
    var m, len := |k.tokens|, |t|;
    && m <= p.limit
    && (len > 0 && TokenIdOf(t[len - 1]).Some? ==> k.pc.AwaitAction?)
    && match k.pc
    case AwaitPrompt => current == n.start && len == 0 && m == 0
    case SendDone => current == n.decide && len == 3 * m + 1 && m == p.limit
    case SendTokenChoice => current == n.decide && len == 3 * m + 1 && m < p.limit
    case SendToken => current == n.emit && len == 3 * m + 2 && m < p.limit
    case AwaitAction => current == n.action && m > 0 && len == 3 * m
    case AwaitCancel => current == n.cancel && m > 0 && len == 3 * m + 1
    case ServerReturned => current == n.end && len == 3 * m + 2 &&
                           (t[len - 1].Select? ==> m == p.limit) &&
                           (t[len - 1].Select? || t[len - 1].Cancel?)
    case ServerRejected => false
  }

  ghost predicate ClientOk(n: Names, p: Params, k: Client, s: Session) {
    && (if Faulted(s.trace) then k.pc.ClientReturned? else ClientAt(n, p, k, s.machine.current, s.trace))
    && k.tokens == TokenIds(Clean(s.trace))
    && GoodData("client", s.trace)
    && |s.trace| <= 3 * |k.tokens| + 3
  }

  ghost predicate ServerOk(n: Names, p: Params, k: Server, s: Session) {
    && (if Faulted(s.trace) then k.pc.ServerReturned? else ServerAt(n, p, k, s.machine.current, s.trace))
    && k.tokens == TokenIds(Clean(s.trace)) == CountTo(|k.tokens|)
    && |k.tokens| <= p.limit
    && Answered(Clean(s.trace))
    && GoodData("server", s.trace)
    && |s.trace| <= 3 * |k.tokens| + 3
  }

  lemma FramesOfClient(n: Names, p: Params, k: Client, current: string, t: seq<Frame>)
    requires ClientAt(n, p, k, current, t)
    ensures |t| <= 3 * |k.tokens| + 2
  {
  }

  lemma FramesOfServer(n: Names, p: Params, k: Server, current: string, t: seq<Frame>)
    requires ServerAt(n, p, k, current, t)
    ensures |t| <= 3 * |k.tokens| + 2
  {
  }

  /** A frame recorded at `id` and the state it leads to, `complete` if terminal, fit the protocol. */
  predicate Edge(n: Names, id: string, f: Frame, next: string, complete: bool) {
    && (id == n.start ==>
          f.Data? && f.from == "client" && f.to == "server" && f.message == "prompt" && next == n.decide && !complete)
    && (id == n.decide ==>
          || (f == Frame.Select("server", "token") && next == n.emit && !complete)
          || (f == Frame.Select("server", "done") && next == n.end && complete))
    && (id == n.emit ==>
          f.Data? && f.from == "server" && f.to == "client" && f.message == "token" && next == n.action && !complete)
    && (id == n.action ==>
          || (f == Frame.Select("client", "continue") && next == n.decide && !complete)
          || (f == Frame.Select("client", "cancel") && next == n.cancel && !complete))
    && (id == n.cancel ==> f == Frame.Cancel("client", "server", n.scope) && next == n.end && complete)
  }

  /** The frame that a step from `id` records determines where the step leads. */
  lemma ShapedStep(c: Conversation, n: Names, id: string, f: Frame)
    requires Shaped(c, n) && GlobalStep(c, id, f).Some? && !f.Fault? && GlobalStep(c, id, f).value in StateMap(c.states)
    ensures Edge(n, id, f, GlobalStep(c, id, f).value, StateMap(c.states)[GlobalStep(c, id, f).value].Terminal())
  {
  }

  lemma LabelsDiffer()
    ensures "token" != "done" && "continue" != "cancel" && "client" != "server" && "prompt" != "token"
  {
    assert |"token"| != |"done"| && |"continue"| != |"cancel"| && |"prompt"| != |"token"|;
    RolesDiffer();
  }

  predicate IsClientCall(p: Params, k: Client, event: Event) {
    if k.Sending() then event.Sending? && event.action == ClientAction(k.pc, p.text) else event.Receiving?
  }

  predicate IsServerCall(k: Server, event: Event) {
    if k.Sending() then event.Sending? && event.action == ServerAction(k) else event.Receiving?
  }

  /** The effect of one recorded frame on the client, away from sessions and machines. */
  lemma ClientThenKeeps(n: Names, p: Params, k: Client, id: string, t: seq<Frame>, f: Frame, next: string, complete: bool)
    requires !k.Done() && ClientAt(n, p, k, id, t) && k.tokens == TokenIds(t)
    requires Edge(n, id, f, next, complete) && !f.Fault? && (k.Sending() ==> Matches(ClientAction(k.pc, p.text), f))
    ensures var k' := ClientThen(p.cancelAfter, k, f, complete);
            && (k'.pc.ClientRejected? ==> k.pc.AwaitToken? && TokenIdOf(f).None?)
            && (!k'.pc.ClientRejected? ==> ClientAt(n, p, k', next, t + [f]) && k'.tokens == TokenIds(t + [f]) &&
                                            |t + [f]| <= 3 * |k'.tokens| + 2)
  {
    hide TokenIds;
    LabelsDiffer();
    TokenIdsExtend(t, f);
    assert (t + [f])[|t|] == f;
  }

  lemma ServerThenKeeps(n: Names, p: Params, k: Server, id: string, t: seq<Frame>, f: Frame, next: string, complete: bool)
    requires p.limit < U64_LIMIT && !k.Done() && ServerAt(n, p, k, id, t)
    requires k.tokens == TokenIds(t) == CountTo(|k.tokens|)
    requires Edge(n, id, f, next, complete) && !f.Fault? && (k.Sending() ==> Matches(ServerAction(k), f))
    ensures var k' := ServerThen(p.limit, k, f, complete);
            && (k'.pc.ServerRejected? ==> k.pc.AwaitPrompt? && !HasPrompt(f))
            && (!k'.pc.ServerRejected? ==>
                  ServerAt(n, p, k', next, t + [f]) && k'.tokens == TokenIds(t + [f]) == CountTo(|k'.tokens|))
            && (!k'.pc.ServerRejected? ==> |k'.tokens| <= p.limit && |t + [f]| <= 3 * |k'.tokens| + 2)
            && (TokenIdOf(f).Some? ==> k.pc.SendToken?)
  {
    hide TokenIds;
    LabelsDiffer();
    TokenIdsExtend(t, f);
    assert (t + [f])[|t|] == f;
    if k.pc.SendToken? {
      assert TokenIdOf(f) == Some(|k.tokens| + 1);
      assert CountTo(|k.tokens|) + [|k.tokens| + 1] == CountTo(|k.tokens| + 1);
    }
  }

  lemma CleanOfFault(t: seq<Frame>, f: Frame)
    requires !Faulted(t)
    ensures Clean(t + [f]) == if f.Fault? then t else t + [f]
    ensures Clean(t) == t
    ensures Faulted(t + [f]) <==> f.Fault?
  {
  }

  lemma OwnPrompt(c: Conversation, n: Names, p: Params, k: Client, s: Session, f: Frame)
    requires Shaped(c, n) && ClientAt(n, p, k, s.machine.current, s.trace) && k.Sending()
    requires f.Data? && Matches(ClientAction(k.pc, p.text), f) && GlobalStep(c, s.machine.current, f).Some?
    ensures HasPrompt(f)
  {
    hide StateMap, Sound;
    StepStaysIndexed(c, s.machine.current, f);
    ShapedStep(c, n, s.machine.current, f);
  }

  /** A successful call keeps what is known of the client; only a bad token payload makes it give up. */
  lemma ClientKeeps(c: Conversation, n: Names, p: Params, k: Client, s: Session, event: Event)
    requires Shaped(c, n) && Consistent(c, "client", s) && ClientOk(n, p, k, s) && !k.Done()
    requires s.machine.Ready() && IsClientCall(p, k, event) && Perform(s, event).Ok?
    ensures var s' := Perform(s, event).value;
            && s'.machine.Ready() && |s'.trace| > 0
            && var k' := ClientThen(p.cancelAfter, k, Last(s'), s'.machine.Local().Terminal());
               && (k'.pc.ClientRejected? ==> k.pc.AwaitToken? && !Failing(event) && TokenIdOf(Last(s')).None?)
               && (!k'.pc.ClientRejected? ==> ClientOk(n, p, k', s'))
  {
    hide StateMap, Find, Closed, Sound, Perform, Shaped, RunTrace, ClientAt, TokenIdOf, TokenIds;
    ShapedSides(c, n);
    CallRecords(c, "client", s, event);
    var s', f := Perform(s, event).value, Recorded(s, event);
    CleanOfFault(s.trace, f);
    assert Last(s') == f;
    FramesOfClient(n, p, k, s.machine.current, s.trace);
    if !f.Fault? {
      ShapedStep(c, n, s.machine.current, f);
      ClientThenKeeps(n, p, k, s.machine.current, s.trace, f, s'.machine.current, s'.machine.Local().Terminal());
      if f.Data? && f.Author() == "client" { OwnPrompt(c, n, p, k, s, f); }
    }
  }

  lemma OwnToken(c: Conversation, n: Names, p: Params, k: Server, s: Session, f: Frame)
    requires Shaped(c, n) && p.limit < U64_LIMIT && ServerAt(n, p, k, s.machine.current, s.trace) && k.Sending()
    requires f.Data? && Matches(ServerAction(k), f) && GlobalStep(c, s.machine.current, f).Some?
    ensures TokenIdOf(f).Some?
  {
    hide StateMap, Sound;
    StepStaysIndexed(c, s.machine.current, f);
    ShapedStep(c, n, s.machine.current, f);
  }

  lemma AwaitsAnswer(n: Names, p: Params, k: Server, s: Session)
    requires ServerAt(n, p, k, s.machine.current, s.trace) && |s.trace| > 0 && TokenIdOf(Last(s)).Some?
    ensures k.pc.AwaitAction?
  {
  }

  lemma OtherAuthor(c: Conversation, n: Names, id: string, f: Frame)
    requires Shaped(c, n) && GlobalStep(c, id, f).Some? && !f.Fault? && f.Author() != "server"
    ensures f.Author() == "client"
  {
    AuthorIsRole(c, id, f);
  }

  lemma FaultIsNoData(role: string, t: seq<Frame>, f: Frame)
    requires GoodData(role, t) && f.Fault?
    ensures GoodData(role, t + [f])
  {
  }

  /** What a server's trace keeps when a frame is recorded. */
  lemma ServerTrace(c: Conversation, n: Names, p: Params, k: Server, s: Session, f: Frame)
    requires Shaped(c, n) && p.limit < U64_LIMIT && ServerAt(n, p, k, s.machine.current, s.trace)
    requires GlobalStep(c, s.machine.current, f).Some? && !f.Fault? && Answered(s.trace) && GoodData("server", s.trace)
    requires f.Author() == "server" <==> k.Sending()
    requires k.Sending() ==> Matches(ServerAction(k), f)
    ensures Answered(s.trace + [f]) && GoodData("server", s.trace + [f])
  {
    hide StateMap, Shaped, TokenIdOf, HasPrompt, ServerAt;
    if f.Data? && f.Author() == "server" { OwnToken(c, n, p, k, s, f); }
    if |s.trace| > 0 && TokenIdOf(Last(s)).Some? {
      AwaitsAnswer(n, p, k, s);
      OtherAuthor(c, n, s.machine.current, f);
    }
  }

  /** A successful call keeps what is known of the server; only a bad prompt payload makes it give up. */
  lemma ServerKeeps(c: Conversation, n: Names, p: Params, k: Server, s: Session, event: Event)
    requires Shaped(c, n) && p.limit < U64_LIMIT && Consistent(c, "server", s) && ServerOk(n, p, k, s) && !k.Done()
    requires s.machine.Ready() && IsServerCall(k, event) && Perform(s, event).Ok?
    ensures var s' := Perform(s, event).value;
            && s'.machine.Ready() && |s'.trace| > 0
            && var k' := ServerThen(p.limit, k, Last(s'), s'.machine.Local().Terminal());
               && (k'.pc.ServerRejected? ==> k.pc.AwaitPrompt? && !Failing(event) && !HasPrompt(Last(s')))
               && (!k'.pc.ServerRejected? ==> ServerOk(n, p, k', s'))
  {
    hide StateMap, Find, Closed, Sound, Perform, Shaped, RunTrace, TokenIds, CountTo, HasPrompt, TokenIdOf, ServerAt, Answered, GoodData;
    ShapedSides(c, n);
    CallRecords(c, "server", s, event);
    var s', f := Perform(s, event).value, Recorded(s, event);
    CleanOfFault(s.trace, f);
    assert Last(s') == f;
    FramesOfServer(n, p, k, s.machine.current, s.trace);
    if !f.Fault? {
      ShapedStep(c, n, s.machine.current, f);
      ServerThenKeeps(n, p, k, s.machine.current, s.trace, f, s'.machine.current, s'.machine.Local().Terminal());
      ServerTrace(c, n, p, k, s, f);
    } else {
      FaultIsNoData("server", s.trace, f);
    }
  }
}
