/** The two Generate loops in every schedule: what any run keeps, the token loss bound, and progress on a reliable channel. */
module GenerateTheorems {
  import opened Basics
  import opened Conversations
  import opened Traces
  import opened Projection
  import opened Machines
  import opened Sessions
  import opened Systems
  import opened Agreement
  import opened ClientServer
  import opened GenerateLoops
  import opened GenerateRuns

  // ----- The invariant under any weather

  ghost predicate ClientSide(n: Names, p: Params, g: Loops) {
    g.client.pc.ClientRejected? || (ClientOk(n, p, g.client, g.sys.left.session) && g.sys.left.live)
  }

  ghost predicate ServerSide(n: Names, p: Params, g: Loops) {
    g.server.pc.ServerRejected? || (ServerOk(n, p, g.server, g.sys.right.session) && g.sys.right.live)
  }

  ghost predicate LoopsOk(c: Conversation, n: Names, p: Params, identity: string, g: Loops) {
    Shaped(c, n) && p.limit < U64_LIMIT && Inv(c, identity, g.sys) && ClientSide(n, p, g) && ServerSide(n, p, g)
  }

  /** A call of the client keeps its side. */
  lemma ClientCallKeeps(c: Conversation, n: Names, p: Params, identity: string, g: Loops, w: Weather)
    requires LoopsOk(c, n, p, identity, g) && TickOf(p, g, Next(Left, w)).Some?
    ensures ClientSide(n, p, TickOf(p, g, Next(Left, w)).value)
  {
    hide Step, Perform, Shaped, ClientOk, ServerOk, Find, Closed, RunTrace, StateMap, ClientThen, ReplyAt;
    ShapedSides(c, n);
    var call := CallOf(p, g, Left);
    StepPerforms(g.sys, Left, call, w);
    ReplyIsEvent(g.sys, Left, call, w);
    ConsistentPeer(c, identity, g.sys, Left);
    var s, event := g.sys.left.session, EventAt(g.sys, Left, call, w).value;
    if Perform(s, event).Ok? { ClientKeeps(c, n, p, g.client, s, event); }
  }

  lemma ServerCallKeeps(c: Conversation, n: Names, p: Params, identity: string, g: Loops, w: Weather)
    requires LoopsOk(c, n, p, identity, g) && TickOf(p, g, Next(Right, w)).Some?
    ensures ServerSide(n, p, TickOf(p, g, Next(Right, w)).value)
  {
    hide Step, Perform, Shaped, ClientOk, ServerOk, Find, Closed, RunTrace, StateMap, ServerThen, ReplyAt;
    ShapedSides(c, n);
    var call := CallOf(p, g, Right);
    StepPerforms(g.sys, Right, call, w);
    ReplyIsEvent(g.sys, Right, call, w);
    ConsistentPeer(c, identity, g.sys, Right);
    var s, event := g.sys.right.session, EventAt(g.sys, Right, call, w).value;
    if Perform(s, event).Ok? { ServerKeeps(c, n, p, g.server, s, event); }
  }

  lemma TickKeeps(c: Conversation, n: Names, p: Params, identity: string, g: Loops, tick: Tick)
    requires LoopsOk(c, n, p, identity, g) && TickOf(p, g, tick).Some?
    ensures LoopsOk(c, n, p, identity, TickOf(p, g, tick).value)
  {
    hide Step, Perform, Shaped, ClientOk, ServerOk, Inv, ClientNext, ServerNext, ReplyAt;
    ShapedSides(c, n);
    match tick {
      case Retire(side) =>
        DropStep(g.sys, side);
        StepKeeps(c, identity, g.sys, Drop(side));
      case Next(side, w) =>
        var call := CallOf(p, g, side);
        StepKeeps(c, identity, g.sys, Do(side, call, w));
        StepPerforms(g.sys, side, call, w);
        if side == Left { ClientCallKeeps(c, n, p, identity, g, w); }
        else { ServerCallKeeps(c, n, p, identity, g, w); }
    }
  }

  lemma BeginOk(c: Conversation, n: Names, p: Params, identity: string, planIdentity: string)
    requires Shaped(c, n) && p.limit < U64_LIMIT
    ensures LoopsOk(c, n, p, identity, Begin(c, p, identity, planIdentity))
  {
    hide Inv, Start, StateMap, Find, Closed, RunTrace, Sound;
    ShapedSides(c, n);
    StartInv(c, identity, planIdentity);
  }

  lemma ReachableOk(c: Conversation, n: Names, p: Params, identity: string, planIdentity: string, run: seq<Loops>, ticks: seq<Tick>)
    requires Shaped(c, n) && p.limit < U64_LIMIT && IsRun(p, run, ticks) && run[0] == Begin(c, p, identity, planIdentity)
    ensures LoopsOk(c, n, p, identity, run[|ticks|])
  {
    hide LoopsOk, TickOf, Shaped, Begin;
    BeginOk(c, n, p, identity, planIdentity);
    for i := 0 to |ticks|
      invariant LoopsOk(c, n, p, identity, run[i])
    {
      assert TickOf(p, run[i], ticks[i]) == Some(run[i + 1]);
      TickKeeps(c, n, p, identity, run[i], ticks[i]);
    }
  }

  // ----- Tokens and agreement

  lemma {:induction false} TokenIdsNormal(t: seq<Frame>)
    ensures TokenIds(NormalTrace(t)) == TokenIds(t)
  {
    if |t| == 0 {
    } else {
      var n := |t| - 1;
      TokenIdsNormal(t[..n]);
      assert NormalTrace(t)[..n] == NormalTrace(t[..n]);
      assert TokenIdOf(Normal(t[n])) == TokenIdOf(t[n]);
    }
  }

  /** Frames without token ids add nothing. */
  lemma {:induction false} NoTokens(t: seq<Frame>, k: nat)
    requires k <= |t| && forall i :: k <= i < |t| ==> TokenIdOf(t[i]).None?
    ensures TokenIds(t) == TokenIds(t[..k])
  {
    if k == |t| {
      assert t[..k] == t;
    } else {
      var n := |t| - 1;
      NoTokens(t[..n], k);
      assert t[..n][..k] == t[..k];
    }
  }

  /** A tail written by the server alone adds at most one token. */
  lemma ServerTailAddsOne(t: seq<Frame>, k: nat)
    requires k <= |t| && Answered(t) && forall i :: k <= i < |t| ==> t[i].Author() == "server"
    ensures TokenIds(t[..k]) <= TokenIds(t) && |TokenIds(t)| <= |TokenIds(t[..k])| + 1
  {
    hide TokenIdOf;
    LabelsDiffer();
    if k == |t| {
      assert t[..k] == t;
    } else {
      var n := |t| - 1;
      forall i | k <= i < n ensures TokenIdOf(t[..n][i]).None? {
        assert t[..n][i] == t[i] && t[i + 1].Author() == "server";
      }
      NoTokens(t[..n], k);
      assert t[..n][..k] == t[..k];
      assert t == t[..n] + [t[n]];
      TokenIdsExtend(t[..n], t[n]);
    }
  }

  /** The client's own frames hold no token. */
  lemma ClientTailAddsNone(t: seq<Frame>, k: nat)
    requires k <= |t| && GoodData("client", t) && forall i :: k <= i < |t| ==> t[i].Author() == "client"
    ensures TokenIds(t) == TokenIds(t[..k])
  {
    LabelsDiffer();
    forall i | k <= i < |t| ensures TokenIdOf(t[i]).None? {
      if t[i].Data? { assert HasPrompt(t[i]); }
    }
    NoTokens(t, k);
  }

  lemma SamePrefixTokens(short: seq<Frame>, long: seq<Frame>)
    requires NormalTrace(short) <= NormalTrace(long)
    ensures |short| <= |long| && TokenIds(long[..|short|]) == TokenIds(short)
  {
    hide TokenIds;
    assert |NormalTrace(short)| == |short| && |NormalTrace(long)| == |long|;
    assert NormalTrace(long[..|short|]) == NormalTrace(short);
    TokenIdsNormal(short);
    TokenIdsNormal(long[..|short|]);
  }

  lemma GoodDataClean(role: string, t: seq<Frame>)
    requires GoodData(role, t)
    ensures GoodData(role, Clean(t))
  {
  }

  /** The client holds a prefix of the server's tokens, at most one short. */
  lemma TokensAgree(c: Conversation, n: Names, p: Params, identity: string, g: Loops)
    requires LoopsOk(c, n, p, identity, g) && !g.client.pc.ClientRejected? && !g.server.pc.ServerRejected?
    ensures g.client.tokens <= g.server.tokens && |g.server.tokens| <= |g.client.tokens| + 1
    ensures |g.server.tokens| <= p.limit && g.server.tokens == CountTo(|g.server.tokens|)
  {
    hide Shaped, Path, TokenIds, ClientAt, ServerAt, RunTrace, StateMap, Answered, GoodData, CountTo;
    ShapedSides(c, n);
    var l, r := Clean(g.sys.left.session.trace), Clean(g.sys.right.session.trace);
    if LinkOk(c, identity, g.sys, Left) {
      LinkIsAhead(c, identity, g.sys, Left);
      SamePrefixTokens(r, l);
      GoodDataClean("client", g.sys.left.session.trace);
      ClientTailAddsNone(l, |r|);
    } else {
      LinkIsAhead(c, identity, g.sys, Right);
      SamePrefixTokens(l, r);
      ServerTailAddsOne(r, |l|);
    }
  }

  lemma CountToPrefix(s: seq<nat>, n: nat)
    requires s <= CountTo(n)
    ensures s == CountTo(|s|)
  {
    forall i | 0 <= i < |s| ensures s[i] == i + 1 { assert s[i] == CountTo(n)[i]; }
  }

  // ----- What the methods return

  /** `o` is what `run_generate_client_plan` returns when its calls meet the answers of the run. */
  ghost predicate ClientReturns(c: Conversation, p: Params, identity: string, planIdentity: string,
                                run: seq<Loops>, ticks: seq<Tick>, o: Outcome)
    requires |run| == |ticks| + 1
  {
    ClientEnds(ClientOver(p.cancelAfter, p.text,
                          ClientRun(ClientStart(p.cancelAfter), Initial(c, "client", identity, planIdentity)),
                          Script(p, run, ticks, Left)), o)
  }

  ghost predicate ServerReturns(c: Conversation, p: Params, identity: string, planIdentity: string,
                                run: seq<Loops>, ticks: seq<Tick>, o: Outcome)
    requires |run| == |ticks| + 1
  {
    ServerEnds(ServerOver(p.limit, ServerRun(Server(AwaitPrompt, []), Initial(c, "server", identity, planIdentity)),
                          Script(p, run, ticks, Right)), o)
  }

  /** The outcomes of both methods are those of the last configuration. */
  lemma RunReturns(c: Conversation, n: Names, p: Params, identity: string, planIdentity: string,
                   run: seq<Loops>, ticks: seq<Tick>)
    requires Shaped(c, n) && IsRun(p, run, ticks) && run[0] == Begin(c, p, identity, planIdentity)
    ensures forall o :: ClientReturns(c, p, identity, planIdentity, run, ticks, o) <==> ClientEnds(ClientOf(run[|ticks|]), o)
    ensures forall o :: ServerReturns(c, p, identity, planIdentity, run, ticks, o) <==> ServerEnds(ServerOf(run[|ticks|]), o)
  {
    hide Shaped, TickOf, ClientOver, ServerOver, ClientEnds, ServerEnds, Script;
    ShapedSides(c, n);
    RunIsLoops(p, run, ticks);
  }

  /**
   Token loss bound. Whatever is injected or dropped, and in every schedule, if both
   methods return a report the server reports the tokens 1 to m and the client the
   tokens 1 to m' with m - 1 <= m' <= m.
   */
  lemma TokenLossBound(c: Conversation, n: Names, p: Params, identity: string, planIdentity: string,
                       run: seq<Loops>, ticks: seq<Tick>, client: Report, server: Report)
    requires Shaped(c, n) && p.limit < U64_LIMIT && IsRun(p, run, ticks) && run[0] == Begin(c, p, identity, planIdentity)
    requires ClientReturns(c, p, identity, planIdentity, run, ticks, Reported(client))
    requires ServerReturns(c, p, identity, planIdentity, run, ticks, Reported(server))
    ensures server.tokens == CountTo(|server.tokens|) && client.tokens == CountTo(|client.tokens|)
    ensures |server.tokens| - 1 <= |client.tokens| <= |server.tokens| <= p.limit
  {
    hide Shaped, LoopsOk, Begin, TickOf, TokenIds, ClientReturns, ServerReturns;
    RunReturns(c, n, p, identity, planIdentity, run, ticks);
    ReachableOk(c, n, p, identity, planIdentity, run, ticks);
    TokensAgree(c, n, p, identity, run[|ticks|]);
    CountToPrefix(client.tokens, |server.tokens|);
  }

  // ----- Runs in which no loop fails

  /** Neither loop has returned an error, and an end is closed only by a loop that has returned. */
  ghost predicate GoingOk(c: Conversation, n: Names, p: Params, identity: string, g: Loops) {
    && LoopsOk(c, n, p, identity, g)
    && !g.client.pc.ClientRejected? && !g.server.pc.ServerRejected?
    && (!g.sys.left.open ==> g.client.Done()) && (!g.sys.right.open ==> g.server.Done())
  }

  function SendingAt(g: Loops, side: Side): bool { if side == Left then g.client.Sending() else g.server.Sending() }

  /** The control point of a loop says whether its state sends, receives or is terminal. */
  ghost predicate Stands(c: Conversation, g: Loops, side: Side) {
    var id := g.sys.At(side).session.machine.current;
    && id in StateMap(c.states)
    && var s := StateMap(c.states)[id];
       && (g.DoneAt(side) <==> s.Terminal())
       && (SendingAt(g, side) <==> Sender(s) == Some(RoleName(side)))
  }

  lemma ClientStands(c: Conversation, n: Names, p: Params, g: Loops)
    requires Shaped(c, n) && ClientAt(n, p, g.client, g.sys.left.session.machine.current, g.sys.left.session.trace)
    ensures Stands(c, g, Left)
  {
    hide StateMap, Sound;
    RolesDiffer();
  }

  lemma ServerStands(c: Conversation, n: Names, p: Params, g: Loops)
    requires Shaped(c, n) && ServerAt(n, p, g.server, g.sys.right.session.machine.current, g.sys.right.session.trace)
    ensures Stands(c, g, Right)
  {
    hide StateMap, Sound;
    RolesDiffer();
  }

  /** A loop that has not recorded a fault stands at a state of its kind; one that has, has returned. */
  lemma LoopStands(c: Conversation, n: Names, p: Params, identity: string, g: Loops, side: Side)
    requires GoingOk(c, n, p, identity, g)
    ensures !Faulted(g.sys.At(side).session.trace) ==> Stands(c, g, side)
    ensures Faulted(g.sys.At(side).session.trace) ==> g.DoneAt(side)
    ensures Sound(c) && RoleOf(c, side) == RoleName(side)
  {
    hide Shaped, Inv, Stands, ClientAt, ServerAt, TokenIds, Answered, GoodData;
    ShapedSides(c, n);
    if !Faulted(g.sys.At(side).session.trace) {
      if side == Left { ClientStands(c, n, p, g); } else { ServerStands(c, n, p, g); }
    }
  }

  /** A sending loop's next action is permitted by its machine. */
  lemma ClientCanEmit(c: Conversation, n: Names, p: Params, k: Client, s: Session)
    requires Shaped(c, n) && Consistent(c, "client", s) && ClientAt(n, p, k, s.machine.current, s.trace) && k.Sending()
    ensures s.machine.Ready() && Emit(s.machine, ClientAction(k.pc, p.text)).Ok?
  {
    hide StateMap, Sound, Find, Closed, RunTrace;
    ShapedSides(c, n);
    LocalIsProjected(c, "client", s.machine);
    LabelsDiffer();
  }

  lemma ServerCanEmit(c: Conversation, n: Names, p: Params, k: Server, s: Session)
    requires Shaped(c, n) && Consistent(c, "server", s) && ServerAt(n, p, k, s.machine.current, s.trace) && k.Sending()
    ensures s.machine.Ready() && Emit(s.machine, ServerAction(k)).Ok?
  {
    hide StateMap, Sound, Find, Closed, RunTrace;
    ShapedSides(c, n);
    LocalIsProjected(c, "server", s.machine);
    LabelsDiffer();
  }

  lemma CanEmit(c: Conversation, n: Names, p: Params, identity: string, g: Loops, side: Side)
    requires GoingOk(c, n, p, identity, g) && SendingAt(g, side)
    ensures g.sys.At(side).session.machine.Ready()
    ensures CallOf(p, g, side).Emits? && Emit(g.sys.At(side).session.machine, CallOf(p, g, side).action).Ok?
  {
    hide Shaped, Inv, ClientAt, ServerAt, TokenIds, Answered, GoodData, Emit, Find, Closed;
    ShapedSides(c, n);
    ConsistentPeer(c, identity, g.sys, side);
    if side == Left { ClientCanEmit(c, n, p, g.client, g.sys.left.session); }
    else { ServerCanEmit(c, n, p, g.server, g.sys.right.session); }
  }

  /** A sending loop has no mail. */
  lemma SenderHasNoMail(c: Conversation, n: Names, p: Params, identity: string, g: Loops, side: Side)
    requires GoingOk(c, n, p, identity, g) && SendingAt(g, side)
    ensures g.sys.Inbox(side) == []
  {
    hide Shaped, Path, ClientAt, ServerAt, Emit, Find, Closed;
    LoopStands(c, n, p, identity, g, side);
    if g.sys.Inbox(side) != [] {
      FollowerReceives(c, identity, g.sys, side.Other());
      CanEmit(c, n, p, identity, g, side);
    }
  }

  /** A call that meets no error succeeds, and a call without an answer waits for mail. */
  lemma CallSucceeds(c: Conversation, n: Names, p: Params, identity: string, g: Loops, side: Side, w: Weather)
    requires GoingOk(c, n, p, identity, g) && !g.DoneAt(side)
    ensures g.sys.At(side).session.machine.Ready() && g.sys.At(side).live && g.sys.At(side).open
    ensures var event := EventAt(g.sys, side, CallOf(p, g, side), w);
            && (event.None? ==> !SendingAt(g, side) && g.sys.Inbox(side) == [] && g.sys.At(side.Other()).open)
            && (event.Some? && !Failing(event.value) ==> Perform(g.sys.At(side).session, event.value).Ok?)
            && (event.Some? ==> event.value.Sending? == SendingAt(g, side))
  {
    hide Shaped, Path, ClientAt, ServerAt, Find, Closed, RunTrace, StateMap, TokenIds, Answered, GoodData, Emit, Accept;
    LoopStands(c, n, p, identity, g, side);
    PeerIsReady(c, identity, RoleOf(c, side), g.sys.At(side));
    if SendingAt(g, side) {
      CanEmit(c, n, p, identity, g, side);
    } else if g.sys.Inbox(side) != [] {
      FollowerReceives(c, identity, g.sys, side.Other());
    }
  }

  /** What waits for a loop is what the other loop's data frames carry. */
  lemma MailIsGood(c: Conversation, n: Names, p: Params, identity: string, g: Loops, side: Side)
    requires GoingOk(c, n, p, identity, g) && g.sys.Inbox(side) != []
    ensures var f := g.sys.Inbox(side)[0].frame;
            f.Data? ==> if side == Left then TokenIdOf(f).Some? else HasPrompt(f)
  {
    hide Shaped, Path, ClientAt, ServerAt, Find, Closed, RunTrace, StateMap, TokenIds, Answered;
    ShapedSides(c, n);
    var lead := side.Other();
    HeadIsSent(c, identity, g.sys, lead);
    var mine, k := Clean(g.sys.At(lead).session.trace), |Clean(g.sys.At(side).session.trace)|;
    GoodDataClean(RoleName(lead), g.sys.At(lead).session.trace);
    assert GoodData(RoleName(lead), mine);
    assert Normal(mine[k]).Author() == mine[k].Author();
  }

  lemma TokenFrame(c: Conversation, n: Names, p: Params, k: Client, s: Session, f: Frame)
    requires Shaped(c, n) && ClientAt(n, p, k, s.machine.current, s.trace) && k.pc.AwaitToken?
    requires GlobalStep(c, s.machine.current, f).Some? && !f.Fault?
    ensures f.Data?
  {
    hide StateMap, Sound;
    StepStaysIndexed(c, s.machine.current, f);
    ShapedStep(c, n, s.machine.current, f);
  }

  lemma PromptFrame(c: Conversation, n: Names, p: Params, k: Server, s: Session, f: Frame)
    requires Shaped(c, n) && ServerAt(n, p, k, s.machine.current, s.trace) && k.pc.AwaitPrompt?
    requires GlobalStep(c, s.machine.current, f).Some? && !f.Fault?
    ensures f.Data?
  {
    hide StateMap, Sound;
    StepStaysIndexed(c, s.machine.current, f);
    ShapedStep(c, n, s.machine.current, f);
  }

  /** The event of a loop's next call in some weather. */
  ghost predicate CallIs(p: Params, g: Loops, side: Side, w: Weather, event: Event) {
    EventAt(g.sys, side, CallOf(p, g, side), w) == Some(event)
  }

  /** A successful call of the client does not make it give up. */
  lemma ClientGoesOn(c: Conversation, n: Names, p: Params, identity: string, g: Loops, w: Weather, event: Event)
    requires GoingOk(c, n, p, identity, g) && TickOf(p, g, Next(Left, w)).Some? && CallIs(p, g, Left, w, event)
    requires g.sys.left.session.machine.Ready() && Perform(g.sys.left.session, event).Ok?
    ensures var g' := TickOf(p, g, Next(Left, w)).value;
            !g'.client.pc.ClientRejected? && (Failing(event) ==> g'.client.Done())
  {
    hide Inv, Shaped, ClientAt, ServerAt, TokenIdOf, Step, Perform, TokenIds, Closed, Find, RunTrace, StateMap, Answered, GoodData, ReplyAt;
    ShapedSides(c, n);
    StepPerforms(g.sys, Left, CallOf(p, g, Left), w);
    ReplyIsEvent(g.sys, Left, CallOf(p, g, Left), w);
    var s := g.sys.left.session;
    ConsistentPeer(c, identity, g.sys, Left);
    CallRecords(c, "client", s, event);
    ClientKeeps(c, n, p, g.client, s, event);
    if event.Receiving? && !Failing(event) {
      MailIsGood(c, n, p, identity, g, Left);
      if g.client.pc.AwaitToken? { TokenFrame(c, n, p, g.client, s, Recorded(s, event)); }
    }
  }

  lemma ServerGoesOn(c: Conversation, n: Names, p: Params, identity: string, g: Loops, w: Weather, event: Event)
    requires GoingOk(c, n, p, identity, g) && TickOf(p, g, Next(Right, w)).Some? && CallIs(p, g, Right, w, event)
    requires g.sys.right.session.machine.Ready() && Perform(g.sys.right.session, event).Ok?
    ensures var g' := TickOf(p, g, Next(Right, w)).value;
            !g'.server.pc.ServerRejected? && (Failing(event) ==> g'.server.Done())
  {
    hide Inv, Shaped, ClientAt, ServerAt, HasPrompt, Step, Perform, TokenIds, Closed, Find, RunTrace, StateMap, Answered, GoodData, ReplyAt;
    ShapedSides(c, n);
    StepPerforms(g.sys, Right, CallOf(p, g, Right), w);
    ReplyIsEvent(g.sys, Right, CallOf(p, g, Right), w);
    var s := g.sys.right.session;
    ConsistentPeer(c, identity, g.sys, Right);
    CallRecords(c, "server", s, event);
    ServerKeeps(c, n, p, g.server, s, event);
    if event.Receiving? && !Failing(event) {
      MailIsGood(c, n, p, identity, g, Right);
      if g.server.pc.AwaitPrompt? { PromptFrame(c, n, p, g.server, s, Recorded(s, event)); }
    }
  }

  lemma GoingSides(c: Conversation, n: Names, p: Params, identity: string, g: Loops, side: Side)
    requires GoingOk(c, n, p, identity, g)
    ensures Sound(c) && RoleOf(c, side) == RoleName(side) && g.sys.At(side).live
    ensures Consistent(c, RoleName(side), g.sys.At(side).session)
  {
    hide Inv, Shaped, ClientOk, ServerOk;
    ShapedSides(c, n);
    ConsistentPeer(c, identity, g.sys, side);
  }

  /** A successful call keeps both loops going and records one frame: a fault exactly when it met an error, which closes its end. */
  lemma CallGoesOn(c: Conversation, n: Names, p: Params, identity: string, g: Loops, side: Side, w: Weather, event: Event)
    requires GoingOk(c, n, p, identity, g) && TickOf(p, g, Next(side, w)).Some? && CallIs(p, g, side, w, event)
    requires g.sys.At(side).session.machine.Ready() && Perform(g.sys.At(side).session, event).Ok?
    ensures var g' := TickOf(p, g, Next(side, w)).value;
            && GoingOk(c, n, p, identity, g')
            && g'.sys.At(side.Other()) == g.sys.At(side.Other())
            && |g'.sys.At(side).session.trace| == |g.sys.At(side).session.trace| + 1
            && (Faulted(g'.sys.At(side).session.trace) <==> Failing(event))
            && (!Failing(event) ==> g'.sys.At(side).open == g.sys.At(side).open)
  {
    hide Inv, Shaped, Step, Perform, LoopsOk, ClientNext, ServerNext, Find, Closed, RunTrace, StateMap, ReplyAt;
    TickKeeps(c, n, p, identity, g, Next(side, w));
    GoingSides(c, n, p, identity, g, side);
    StepPerforms(g.sys, side, CallOf(p, g, side), w);
    CallRecords(c, RoleName(side), g.sys.At(side).session, event);
    if side == Left { ClientGoesOn(c, n, p, identity, g, w, event); }
    else { ServerGoesOn(c, n, p, identity, g, w, event); }
  }

  lemma RetireGoesOn(c: Conversation, n: Names, p: Params, identity: string, g: Loops, side: Side)
    requires GoingOk(c, n, p, identity, g) && TickOf(p, g, Retire(side)).Some?
    ensures var g' := TickOf(p, g, Retire(side)).value;
            && GoingOk(c, n, p, identity, g') && Weight(g'.sys) == Weight(g.sys) + 1
            && g'.sys.left.session == g.sys.left.session && g'.sys.right.session == g.sys.right.session
  {
    hide LoopsOk;
    TickKeeps(c, n, p, identity, g, Retire(side));
    DropStep(g.sys, side);
  }

  /** No more frames than three per token and three. */
  lemma WeightIsBounded(c: Conversation, n: Names, p: Params, identity: string, g: Loops)
    requires GoingOk(c, n, p, identity, g)
    ensures Weight(g.sys) <= 6 * p.limit + 8
  {
    hide Shaped, Inv, TokenIds, Answered, GoodData, CountTo, ClientAt, ServerAt;
    TokensAgree(c, n, p, identity, g);
  }

  // ----- Runs over a reliable channel

  /** No loop has returned an error and no fault has been recorded. */
  ghost predicate CalmOk(c: Conversation, n: Names, p: Params, identity: string, g: Loops) {
    GoingOk(c, n, p, identity, g) && !Faulted(g.sys.left.session.trace) && !Faulted(g.sys.right.session.trace)
  }

  predicate CalmTick(tick: Tick) { tick.Next? ==> tick.weather == Clear(None) }

  lemma CalmStands(c: Conversation, n: Names, p: Params, identity: string, g: Loops)
    requires CalmOk(c, n, p, identity, g)
    ensures Stands(c, g, Left) && Stands(c, g, Right) && Sound(c)
    ensures Inv(c, identity, g.sys) && g.sys.left.live && g.sys.right.live
  {
    hide Shaped, Inv, Stands, ClientOk, ServerOk;
    LoopStands(c, n, p, identity, g, Left);
    LoopStands(c, n, p, identity, g, Right);
  }

  /** The end of the other side is open, unless mail is waiting. */
  lemma OtherEndIsOpen(c: Conversation, n: Names, p: Params, identity: string, g: Loops, side: Side)
    requires CalmOk(c, n, p, identity, g) && !g.DoneAt(side)
    ensures g.sys.Inbox(side) == [] ==> g.sys.At(side.Other()).open
  {
    hide Shaped, Inv, Path, ClientOk, ServerOk;
    CalmStands(c, n, p, identity, g);
    if !g.sys.At(side.Other()).open { TerminalPeer(c, identity, g.sys, side); }
  }

  /** In calm weather the next call of a loop succeeds, or waits for mail. */
  lemma CalmCallSucceeds(c: Conversation, n: Names, p: Params, identity: string, g: Loops, side: Side)
    requires CalmOk(c, n, p, identity, g) && !g.DoneAt(side)
    ensures var event := EventAt(g.sys, side, CallOf(p, g, side), Clear(None));
            && g.sys.At(side).session.machine.Ready() && g.sys.At(side).live
            && (event.None? <==> !SendingAt(g, side) && g.sys.Inbox(side) == [])
            && (event.Some? ==> !Failing(event.value) && Perform(g.sys.At(side).session, event.value).Ok?)
  {
    hide Shaped, Inv, ClientOk, ServerOk, Perform, Find, Closed;
    CallSucceeds(c, n, p, identity, g, side, Clear(None));
    OtherEndIsOpen(c, n, p, identity, g, side);
    if SendingAt(g, side) { SenderHasNoMail(c, n, p, identity, g, side); }
  }

  lemma CalmTickKeeps(c: Conversation, n: Names, p: Params, identity: string, g: Loops, tick: Tick)
    requires CalmOk(c, n, p, identity, g) && CalmTick(tick) && TickOf(p, g, tick).Some?
    ensures var g' := TickOf(p, g, tick).value; CalmOk(c, n, p, identity, g') && Weight(g'.sys) == Weight(g.sys) + 1
  {
    hide GoingOk, Step, Perform, Find, Closed, ClientNext, ServerNext, ReplyAt;
    match tick {
      case Retire(side) => RetireGoesOn(c, n, p, identity, g, side);
      case Next(side, w) =>
        CalmCallSucceeds(c, n, p, identity, g, side);
        StepPerforms(g.sys, side, CallOf(p, g, side), w);
        CallGoesOn(c, n, p, identity, g, side, w, EventAt(g.sys, side, CallOf(p, g, side), w).value);
    }
  }

  lemma BeginGoes(c: Conversation, n: Names, p: Params, identity: string, planIdentity: string)
    requires Shaped(c, n) && p.limit < U64_LIMIT && p.cancelAfter != Some(0)
    ensures CalmOk(c, n, p, identity, Begin(c, p, identity, planIdentity)) && Weight(Begin(c, p, identity, planIdentity).sys) == 0
  {
    hide LoopsOk, Inv, StateMap, Sound;
    BeginOk(c, n, p, identity, planIdentity);
  }

  /** Whether the envelope of a loop's next call, if it sends one, is within the size limit. */
  ghost predicate NextFits(fit: Fit, p: Params, g: Loops, side: Side) {
    CallFits(fit, g.sys.At(side).session.machine, CallOf(p, g, side))
  }

  /** A step over a reliable channel: a call meets nothing but the size limit. */
  ghost predicate FairTick(fit: Fit, p: Params, g: Loops, tick: Tick) {
    tick.Next? ==> tick.weather == Fair(fit, g.sys.At(tick.side).session.machine, CallOf(p, g, tick.side))
  }

  ghost predicate FairRun(fit: Fit, p: Params, run: seq<Loops>, ticks: seq<Tick>)
    requires |run| == |ticks| + 1
  {
    forall i :: 0 <= i < |ticks| ==> FairTick(fit, p, run[i], ticks[i])
  }

  /** Every envelope that a loop of the run puts on the wire, or is about to, is within the size limit. */
  ghost predicate AllFit(fit: Fit, p: Params, run: seq<Loops>) {
    forall i, side: Side :: 0 <= i < |run| ==> NextFits(fit, p, run[i], side)
  }

  lemma ReachableCalm(c: Conversation, n: Names, p: Params, identity: string, planIdentity: string, fit: Fit,
                      run: seq<Loops>, ticks: seq<Tick>)
    requires Shaped(c, n) && p.limit < U64_LIMIT && p.cancelAfter != Some(0)
    requires IsRun(p, run, ticks) && run[0] == Begin(c, p, identity, planIdentity)
    requires FairRun(fit, p, run, ticks) && AllFit(fit, p, run)
    ensures CalmOk(c, n, p, identity, run[|ticks|]) && Weight(run[|ticks|].sys) == |ticks|
  {
    hide CalmOk, TickOf, Shaped, Begin, Weight, CallFits;
    BeginGoes(c, n, p, identity, planIdentity);
    for i := 0 to |ticks|
      invariant CalmOk(c, n, p, identity, run[i]) && Weight(run[i].sys) == i
    {
      assert TickOf(p, run[i], ticks[i]) == Some(run[i + 1]) && FairTick(fit, p, run[i], ticks[i]);
      assert ticks[i].Next? ==> NextFits(fit, p, run[i], ticks[i].side);
      CalmTickKeeps(c, n, p, identity, run[i], ticks[i]);
    }
  }

  /** No more frames than three per token and two. */
  lemma CalmIsBounded(c: Conversation, n: Names, p: Params, identity: string, g: Loops)
    requires CalmOk(c, n, p, identity, g)
    ensures Weight(g.sys) <= 6 * p.limit + 6
  {
    hide Shaped, Inv, TokenIds, Answered, GoodData, CountTo, ClientAt, ServerAt;
    TokensAgree(c, n, p, identity, g);
    FramesOfClient(n, p, g.client, g.sys.left.session.machine.current, g.sys.left.session.trace);
    FramesOfServer(n, p, g.server, g.sys.right.session.machine.current, g.sys.right.session.trace);
  }

  // ----- Progress

  ghost predicate Enabled(fit: Fit, p: Params, g: Loops, tick: Tick) {
    FairTick(fit, p, g, tick) && TickOf(p, g, tick).Some?
  }

  lemma CallIsEnabled(p: Params, g: Loops, side: Side, w: Weather)
    requires !g.DoneAt(side) && g.sys.At(side).live && g.sys.At(side).session.machine.Ready()
    requires EventAt(g.sys, side, CallOf(p, g, side), w).Some?
    ensures TickOf(p, g, Next(side, w)).Some?
  {
    hide Step, Find, Closed;
    StepIsEnabled(g.sys, side, CallOf(p, g, side), w);
  }

  /** Two loops that both wait for mail cannot both have none. */
  lemma SomeoneSends(c: Conversation, n: Names, p: Params, identity: string, g: Loops)
    requires CalmOk(c, n, p, identity, g) && g.sys.toLeft == [] && g.sys.toRight == []
    ensures g.DoneAt(Left) <==> g.DoneAt(Right)
    ensures g.DoneAt(Left) || SendingAt(g, Left) || SendingAt(g, Right)
  {
    hide Shaped, Path, ClientOk, ServerOk, StateMap, Find, Closed, LinkOk;
    CalmStands(c, n, p, identity, g);
    Level(c, identity, g.sys);
    ShapedSides(c, n);
    assert IndexedOk(c, g.sys.left.session.machine.current);
  }

  lemma LoopThatMoves(c: Conversation, n: Names, p: Params, identity: string, g: Loops) returns (side: Side)
    requires CalmOk(c, n, p, identity, g) && (!g.client.Done() || !g.server.Done())
    ensures !g.DoneAt(side) && (SendingAt(g, side) || g.sys.Inbox(side) != [])
  {
    hide Shaped, Inv, ClientOk, ServerOk;
    CalmStands(c, n, p, identity, g);
    if g.DoneAt(Left) {
      TerminalPeer(c, identity, g.sys, Right);
      side := Right;
    } else if g.DoneAt(Right) {
      TerminalPeer(c, identity, g.sys, Left);
      side := Left;
    } else if g.sys.toLeft != [] || SendingAt(g, Left) {
      side := Left;
    } else {
      if g.sys.toRight == [] { SomeoneSends(c, n, p, identity, g); }
      side := Right;
    }
  }

  lemma RetireIsEnabled(p: Params, g: Loops, side: Side)
    requires g.DoneAt(side) && g.sys.At(side).open
    ensures TickOf(p, g, Retire(side)).Some?
  {
    hide Step;
    DropStep(g.sys, side);
  }

  /** While a loop has not returned, or an end is still open, something can happen. */
  lemma CalmProgress(c: Conversation, n: Names, p: Params, identity: string, fit: Fit, g: Loops) returns (tick: Tick)
    requires CalmOk(c, n, p, identity, g) && NextFits(fit, p, g, Left) && NextFits(fit, p, g, Right)
    requires !g.client.Done() || !g.server.Done() || g.sys.left.open || g.sys.right.open
    ensures Enabled(fit, p, g, tick)
  {
    hide GoingOk, TickOf, CallFits, Stands;
    if g.DoneAt(Left) && g.DoneAt(Right) {
      var side := if g.sys.left.open then Left else Right;
      RetireIsEnabled(p, g, side);
      tick := Retire(side);
    } else {
      var side := LoopThatMoves(c, n, p, identity, g);
      CalmCallSucceeds(c, n, p, identity, g, side);
      CallIsEnabled(p, g, side, Clear(None));
      tick := Next(side, Clear(None));
    }
  }
}
