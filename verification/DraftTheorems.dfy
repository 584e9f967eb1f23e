/** Conservation and termination of draft synchronisation, in every schedule over a reliable channel. */
module DraftTheorems {
  import opened Basics
  import opened Conversations
  import opened Traces
  import opened Projection
  import opened Machines
  import opened Sessions
  import opened Systems
  import opened Agreement
  import opened Hex
  import opened DraftLoops
  import opened ClientServer
  import opened DraftRuns

  /** Neither loop has failed, and an end is closed only by a loop that has finished. */
  ghost predicate LoopsOk(c: Conversation, n: Names, o: Oracles, identity: string, g: Loops) {
    && Shaped(c, n) && Inv(c, identity, g.sys)
    && ClientOk(n, o.client, g.client, g.sys.left.session) && ServerOk(n, o.server, g.server, g.sys.right.session)
    && g.sys.left.live && g.sys.right.live
    && (!g.sys.left.open ==> g.client.Done()) && (!g.sys.right.open ==> g.server.Done())
  }

  // ----- Control points and states

  /** Where a loop stands: at an end, or at a state where it sends exactly when it is about to send. */
  ghost predicate Stands(c: Conversation, n: Names, g: Loops, side: Side) {
    var id, t := g.sys.At(side).session.machine.current, g.sys.At(side).session.trace;
    && id in StateMap(c.states)
    && (g.At(side).pc.Returned? <==> StateMap(c.states)[id].Terminal())
    && (g.At(side).pc.TooManyRounds? <==> id == n.clientTurn && |Messages("client", t)| == MAX_SYNC_ROUNDS)
    && (!g.At(side).Done() ==> (g.At(side).Sending() <==> Sender(StateMap(c.states)[id]) == Some(RoleName(side))))
    && !g.At(side).pc.Rejected?
  }

  lemma KindsDiffer(c: Conversation, n: Names)
    requires Shaped(c, n)
    ensures n.clientTurn != n.clientSend && n.clientTurn != n.serverTurn && n.clientTurn != n.serverSend && n.clientTurn != n.end
  {
    hide StateMap, Sound;
    LabelsDiffer();
  }

  lemma LoopStands(c: Conversation, n: Names, o: Oracles, identity: string, g: Loops, side: Side)
    requires LoopsOk(c, n, o, identity, g)
    ensures Stands(c, n, g, side) && Sound(c) && RoleOf(c, side) == RoleName(side)
  {
    hide StateMap, Sound, Inv, Messages, Values, AllGenerate;
    ShapedSides(c, n);
    LabelsDiffer();
    KindsDiffer(c, n);
  }

  lemma CanEmit(c: Conversation, n: Names, o: Oracles, identity: string, g: Loops, side: Side)
    requires LoopsOk(c, n, o, identity, g) && g.At(side).Sending()
    ensures var m := g.sys.At(side).session.machine;
            m.Ready() && Emit(m, SyncAction(side == Left, o.At(side), g.At(side))).Ok?
  {
    hide StateMap, Sound, Find, Closed, RunTrace, Path, Messages, Values, AllGenerate, HexOf;
    ShapedSides(c, n);
    LocalIsProjected(c, RoleOf(c, side), g.sys.At(side).session.machine);
  }

  // ----- Messages and agreement

  lemma {:induction false} MessagesNormal(role: string, t: seq<Frame>)
    ensures Messages(role, NormalTrace(t)) == Messages(role, t)
  {
    if |t| == 0 {
    } else {
      var n := |t| - 1;
      MessagesNormal(role, t[..n]);
      assert NormalTrace(t)[..n] == NormalTrace(t[..n]);
      assert MessageOf(Normal(t[n])) == MessageOf(t[n]) && Normal(t[n]).Author() == t[n].Author();
    }
  }

  lemma {:induction false} MessagesGrow(role: string, t: seq<Frame>, k: nat)
    requires k <= |t|
    ensures |Messages(role, t[..k])| <= |Messages(role, t)|
    ensures (forall i :: k <= i < |t| ==> t[i].Author() != role) ==> Messages(role, t[..k]) == Messages(role, t)
  {
    if k == |t| {
      assert t[..k] == t;
    } else {
      var n := |t| - 1;
      MessagesGrow(role, t[..n], k);
      assert t[..n][..k] == t[..k];
    }
  }

  /** The side ahead holds at least the messages of the other; of the other's role, exactly those. */
  lemma AheadMessages(c: Conversation, n: Names, lead: Side, longer: seq<Frame>, shorter: seq<Frame>)
    requires Shaped(c, n) && Ahead(c, lead, longer, shorter)
    ensures |shorter| <= |longer|
    ensures forall role :: |Messages(role, shorter)| <= |Messages(role, longer)|
    ensures forall role :: role != RoleOf(c, lead) ==> Messages(role, shorter) == Messages(role, longer)
  {
    hide Shaped, Messages;
    assert |NormalTrace(shorter)| == |shorter| && |NormalTrace(longer)| == |longer|;
    forall role
      ensures |Messages(role, shorter)| <= |Messages(role, longer)|
      ensures role != RoleOf(c, lead) ==> Messages(role, shorter) == Messages(role, longer)
    {
      assert NormalTrace(longer[..|shorter|]) == NormalTrace(shorter);
      MessagesNormal(role, longer[..|shorter|]);
      MessagesNormal(role, shorter);
      MessagesGrow(role, longer, |shorter|);
    }
  }

  /** Whoever has mail at the client's turn is the server. */
  lemma StoppedReaderIsServer(c: Conversation, n: Names, identity: string, g: Loops, lead: Side)
    requires Shaped(c, n) && Inv(c, identity, g.sys)
    requires g.sys.At(lead.Other()).session.machine.current == n.clientTurn
    requires var m, q := g.sys.At(lead.Other()).session.machine, g.sys.Inbox(lead.Other());
             q != [] && m.Ready() && Accept(m, q[0]).Ok?
    ensures lead == Left
  {
    hide StateMap, Sound, Find, Closed, RunTrace, LinkOk;
    ShapedSides(c, n);
    var m, e := g.sys.At(lead.Other()).session.machine, g.sys.Inbox(lead.Other())[0];
    AcceptIsStep(c, RoleOf(c, lead.Other()), m, e);
    ShapedStep(c, n, m.current, e.frame);
  }

  /** The client never runs past the round limit: with all its messages in, it is not ahead of a loop that has stopped. */
  lemma LimitIsLast(c: Conversation, n: Names, o: Oracles, identity: string, g: Loops, lead: Side)
    requires LoopsOk(c, n, o, identity, g) && LinkOk(c, identity, g.sys, lead)
    requires g.At(lead.Other()).pc.TooManyRounds?
    ensures g.sys.Inbox(lead.Other()) == []
  {
    hide StateMap, Sound, Find, Closed, RunTrace, Messages, Values, AllGenerate, Ahead, Path;
    ShapedSides(c, n);
    LoopStands(c, n, o, identity, g, lead.Other());
    var mine, theirs := g.sys.At(lead).session.trace, g.sys.At(lead.Other()).session.trace;
    assert Clean(mine) == mine && Clean(theirs) == theirs;
    LinkIsAhead(c, identity, g.sys, lead);
    AheadMessages(c, n, lead, mine, theirs);
    assert |mine| == |theirs| + |g.sys.Inbox(lead.Other())| by {
      assert |NormalTrace(mine)| == |NormalTrace(theirs)| + |Frames(g.sys.Inbox(lead.Other()))|;
    }
    if g.sys.Inbox(lead.Other()) != [] {
      FollowerReceives(c, identity, g.sys, lead);
      StoppedReaderIsServer(c, n, identity, g, lead);
    }
  }

  /** With empty queues both loops stand at the same state with the same messages. */
  lemma LevelLoops(c: Conversation, n: Names, o: Oracles, identity: string, g: Loops)
    requires LoopsOk(c, n, o, identity, g) && g.sys.toLeft == [] && g.sys.toRight == []
    ensures NormalTrace(g.sys.left.session.trace) == NormalTrace(g.sys.right.session.trace)
    ensures g.sys.left.session.machine.current == g.sys.right.session.machine.current
    ensures forall role :: Messages(role, g.sys.left.session.trace) == Messages(role, g.sys.right.session.trace)
  {
    hide StateMap, Sound, Find, Closed, RunTrace, Messages, Values, AllGenerate, Path, ClientAt, ServerAt;
    ShapedSides(c, n);
    Level(c, identity, g.sys);
    var l, r := g.sys.left.session.trace, g.sys.right.session.trace;
    assert Clean(l) == l && Clean(r) == r && Frames([]) == [];
    assert NormalTrace(l) == NormalTrace(r);
    forall role ensures Messages(role, l) == Messages(role, r) {
      MessagesNormal(role, l);
      MessagesNormal(role, r);
    }
  }

  lemma OneLeads(c: Conversation, identity: string, sys: System, side: Side)
    requires |c.roles| == 2 && Inv(c, identity, sys) && !LinkOk(c, identity, sys, side)
    ensures sys.Inbox(side.Other()) == []
  {
  }

  /** Next to a loop that has stopped, one has mail or has stopped too. */
  lemma StoppedPeer(c: Conversation, n: Names, o: Oracles, identity: string, g: Loops, side: Side)
    requires LoopsOk(c, n, o, identity, g) && g.At(side.Other()).Done()
    ensures g.sys.Inbox(side.Other()) == []
    ensures g.sys.Inbox(side) == [] ==> g.At(side).pc == g.At(side.Other()).pc
  {
    hide Shaped, Path, ClientAt, ServerAt, Find, Closed, RunTrace, Messages, LinkOk;
    LoopStands(c, n, o, identity, g, side);
    LoopStands(c, n, o, identity, g, side.Other());
    if g.At(side.Other()).pc.Returned? {
      TerminalPeer(c, identity, g.sys, side);
    } else if LinkOk(c, identity, g.sys, side) {
      LimitIsLast(c, n, o, identity, g, side);
    } else {
      OneLeads(c, identity, g.sys, side);
    }
    if g.sys.Inbox(side) == [] { LevelLoops(c, n, o, identity, g); }
  }

  /** A loop that is still running finds its own end open, and the other end open unless mail is waiting. */
  lemma EndsAreOpen(c: Conversation, n: Names, o: Oracles, identity: string, g: Loops, side: Side)
    requires LoopsOk(c, n, o, identity, g) && !g.At(side).Done()
    ensures g.sys.At(side).open
    ensures g.sys.Inbox(side) == [] ==> g.sys.At(side.Other()).open
  {
    hide Shaped, Inv, ClientOk, ServerOk;
    if !g.sys.At(side.Other()).open { StoppedPeer(c, n, o, identity, g, side); }
  }

  lemma SenderHasNoMail(c: Conversation, n: Names, o: Oracles, identity: string, g: Loops, side: Side)
    requires LoopsOk(c, n, o, identity, g) && g.At(side).Sending()
    ensures g.sys.Inbox(side) == []
  {
    hide Shaped, Path, ClientAt, ServerAt, Find, Closed, RunTrace, Messages, StateMap;
    ShapedSides(c, n);
    if g.sys.Inbox(side) != [] {
      FollowerReceives(c, identity, g.sys, side.Other());
      CanEmit(c, n, o, identity, g, side);
    }
  }

  /** The next call of a running loop succeeds, or waits for mail. */
  lemma CallSucceeds(c: Conversation, n: Names, o: Oracles, identity: string, g: Loops, side: Side)
    requires LoopsOk(c, n, o, identity, g) && !g.At(side).Done()
    ensures var event := EventAt(g.sys, side, CallOf(o, g, side), Clear(None));
            && g.sys.At(side).session.machine.Ready()
            && (event.None? <==> !g.At(side).Sending() && g.sys.Inbox(side) == [])
            && (event.Some? ==> !Failing(event.value) && Perform(g.sys.At(side).session, event.value).Ok?)
  {
    hide Shaped, Path, ClientAt, ServerAt, Find, Closed, RunTrace, StateMap, Messages, GoodSync, ActionOf;
    ShapedSides(c, n);
    EndsAreOpen(c, n, o, identity, g, side);
    PeerIsReady(c, identity, RoleOf(c, side), g.sys.At(side));
    if g.At(side).Sending() {
      SenderHasNoMail(c, n, o, identity, g, side);
      CanEmit(c, n, o, identity, g, side);
    } else if g.sys.Inbox(side) != [] {
      FollowerReceives(c, identity, g.sys, side.Other());
    }
  }

  /** Waiting data frames carry messages. */
  lemma MailIsGood(c: Conversation, n: Names, o: Oracles, identity: string, g: Loops, side: Side)
    requires LoopsOk(c, n, o, identity, g) && g.sys.Inbox(side) != []
    ensures var f := g.sys.Inbox(side)[0].frame; f.Data? ==> Paid(f)
  {
    hide Shaped, Path, ClientAt, ServerAt, Find, Closed, RunTrace, StateMap, Messages;
    ShapedSides(c, n);
    var lead := side.Other();
    HeadIsSent(c, identity, g.sys, lead);
    var mine, k := g.sys.At(lead).session.trace, |Clean(g.sys.At(side).session.trace)|;
    assert Clean(mine) == mine && GoodSync(mine);
  }

  // ----- Steps

  lemma ClientKeeps(c: Conversation, n: Names, o: Oracles, k: Party, s: Session, event: Event)
    requires Shaped(c, n) && Consistent(c, "client", s) && ClientOk(n, o.client, k, s) && !k.Done()
    requires s.machine.Ready() && Perform(s, event).Ok? && !Failing(event)
    requires if k.Sending() then event.Sending? && event.action == SyncAction(true, o.client, k) else event.Receiving?
    requires event.Receiving? && event.reply.value.frame.Data? ==> Paid(event.reply.value.frame)
    ensures var s', f := Perform(s, event).value, Recorded(s, event);
            && |s'.trace| == |s.trace| + 1 && !Faulted(s'.trace)
            && ClientOk(n, o.client, SyncThen(true, o.client, k, f), s')
  {
    hide StateMap, Find, Closed, Sound, Perform, Shaped, RunTrace, ClientAt, Messages, MessageOf, SyncThen, ActionOf;
    ShapedSides(c, n);
    CallRecords(c, "client", s, event);
    var s', f := Perform(s, event).value, Recorded(s, event);
    ShapedStep(c, n, s.machine.current, f);
    ClientMoves(n, o.client, k, s.machine.current, |s.trace|, f, s'.machine.current);
    ClientRecords(n, o.client, k, s.machine.current, s.trace, f, s'.machine.current);
  }

  lemma ServerKeeps(c: Conversation, n: Names, o: Oracles, k: Party, s: Session, event: Event)
    requires Shaped(c, n) && Consistent(c, "server", s) && ServerOk(n, o.server, k, s) && !k.Done()
    requires s.machine.Ready() && Perform(s, event).Ok? && !Failing(event)
    requires if k.Sending() then event.Sending? && event.action == SyncAction(false, o.server, k) else event.Receiving?
    requires event.Receiving? && event.reply.value.frame.Data? ==> Paid(event.reply.value.frame)
    ensures var s', f := Perform(s, event).value, Recorded(s, event);
            && |s'.trace| == |s.trace| + 1 && !Faulted(s'.trace)
            && ServerOk(n, o.server, SyncThen(false, o.server, k, f), s')
  {
    hide StateMap, Find, Closed, Sound, Perform, Shaped, RunTrace, ServerAt, Messages, MessageOf, SyncThen, ActionOf;
    ShapedSides(c, n);
    CallRecords(c, "server", s, event);
    var s', f := Perform(s, event).value, Recorded(s, event);
    ShapedStep(c, n, s.machine.current, f);
    ServerMoves(n, o.server, k, s.machine.current, |s.trace|, f, s'.machine.current);
    ServerRecords(n, o.server, k, s.machine.current, s.trace, f, s'.machine.current);
  }

  /** The envelope of a loop's next call, if it sends one, is within the size limit. */
  ghost predicate NextFits(o: Oracles, fit: Fit, g: Loops, side: Side) {
    CallFits(fit, g.sys.At(side).session.machine, CallOf(o, g, side))
  }

  lemma RetireKeeps(c: Conversation, n: Names, o: Oracles, identity: string, fit: Fit, g: Loops, side: Side)
    requires LoopsOk(c, n, o, identity, g) && TickOf(o, fit, g, Retire(side)).Some?
    ensures var g' := TickOf(o, fit, g, Retire(side)).value;
            LoopsOk(c, n, o, identity, g') && Weight(g'.sys) == Weight(g.sys) + 1
  {
    hide Step, Shaped, Inv, ClientOk, ServerOk;
    ShapedSides(c, n);
    DropStep(g.sys, side);
    StepKeeps(c, identity, g.sys, Drop(side));
  }

  /** A loop whose call succeeds goes on with the frame it has recorded. */
  lemma NextIsThen(o: Oracles, fit: Fit, g: Loops, side: Side, event: Event)
    requires !g.At(side).Done() && g.sys.At(side).session.machine.Ready()
    requires EventAt(g.sys, side, CallOf(o, g, side), WeatherOf(o, fit, g, side)) == Some(event)
    requires Perform(g.sys.At(side).session, event).Ok? && !Failing(event)
    ensures SyncNext(side == Left, o.At(side), RunOf(g, side), AnswerOf(o, fit, g, side)).party ==
            SyncThen(side == Left, o.At(side), g.At(side), Recorded(g.sys.At(side).session, event))
  {
    hide Perform, Find, Closed, SyncThen, SyncAction, ReplyAt, Abandoned, CallOver, Fair;
    ReplyIsEvent(g.sys, side, CallOf(o, g, side), WeatherOf(o, fit, g, side));
    CallIsPerform(g.sys.At(side).session, g.At(side).Sending(), SyncAction(side == Left, o.At(side), g.At(side)),
                  AnswerOf(o, fit, g, side));
  }

  lemma NextKeeps(c: Conversation, n: Names, o: Oracles, identity: string, fit: Fit, g: Loops, side: Side)
    requires LoopsOk(c, n, o, identity, g) && TickOf(o, fit, g, Next(side)).Some? && NextFits(o, fit, g, side)
    ensures var g' := TickOf(o, fit, g, Next(side)).value;
            LoopsOk(c, n, o, identity, g') && Weight(g'.sys) == Weight(g.sys) + 1
  {
    hide Step, Shaped, Inv, ClientOk, ServerOk, Perform, Find, Closed, RunTrace, StateMap, SyncThen, SyncNext, AnswerOf, CallFits;
    ShapedSides(c, n);
    var call := CallOf(o, g, side);
    CallSucceeds(c, n, o, identity, g, side);
    StepPerforms(g.sys, side, call, Clear(None));
    StepKeeps(c, identity, g.sys, Do(side, call, Clear(None)));
    var s, event := g.sys.At(side).session, EventAt(g.sys, side, call, Clear(None)).value;
    NextIsThen(o, fit, g, side, event);
    ConsistentPeer(c, identity, g.sys, side);
    if event.Receiving? { MailIsGood(c, n, o, identity, g, side); }
    if side == Left { ClientKeeps(c, n, o, g.client, s, event); } else { ServerKeeps(c, n, o, g.server, s, event); }
  }

  lemma BeginOk(c: Conversation, n: Names, o: Oracles, identity: string, planIdentity: string)
    requires Shaped(c, n)
    ensures LoopsOk(c, n, o, identity, Begin(c, o, identity, planIdentity)) && Weight(Begin(c, o, identity, planIdentity).sys) == 0
  {
    hide Values, AllGenerate, Inv, Start, StateMap, Find, Closed, RunTrace, Sound, IsSend, IsChoice, ClientAndServer, Consistent, LinkOk;
    ShapedSides(c, n);
    NextValue(o.client, 0);
    NextValue(o.server, 0);
    StartInv(c, identity, planIdentity);
  }

  lemma TickKeeps(c: Conversation, n: Names, o: Oracles, identity: string, fit: Fit, g: Loops, tick: Tick)
    requires LoopsOk(c, n, o, identity, g) && TickOf(o, fit, g, tick).Some? && NextFits(o, fit, g, tick.side)
    ensures var g' := TickOf(o, fit, g, tick).value; LoopsOk(c, n, o, identity, g') && Weight(g'.sys) == Weight(g.sys) + 1
  {
    hide LoopsOk, TickOf, Weight;
    match tick {
      case Retire(side) => RetireKeeps(c, n, o, identity, fit, g, side);
      case Next(side) => NextKeeps(c, n, o, identity, fit, g, side);
    }
  }

  /** Every envelope that a loop of the run puts on the wire, or is about to, is within the size limit. */
  ghost predicate AllFit(o: Oracles, fit: Fit, run: seq<Loops>) {
    forall i, side: Side :: 0 <= i < |run| ==> NextFits(o, fit, run[i], side)
  }

  lemma ReachableOk(c: Conversation, n: Names, o: Oracles, identity: string, planIdentity: string, fit: Fit,
                    run: seq<Loops>, ticks: seq<Tick>)
    requires Shaped(c, n) && IsRun(o, fit, run, ticks) && run[0] == Begin(c, o, identity, planIdentity)
    requires AllFit(o, fit, run)
    ensures LoopsOk(c, n, o, identity, run[|ticks|]) && Weight(run[|ticks|].sys) == |ticks|
  {
    hide LoopsOk, TickOf, Shaped, Begin, Weight, NextFits;
    BeginOk(c, n, o, identity, planIdentity);
    for i := 0 to |ticks|
      invariant LoopsOk(c, n, o, identity, run[i]) && Weight(run[i].sys) == i
    {
      assert TickOf(o, fit, run[i], ticks[i]) == Some(run[i + 1]) && NextFits(o, fit, run[i], ticks[i].side);
      TickKeeps(c, n, o, identity, fit, run[i], ticks[i]);
    }
  }

  // ----- Progress

  lemma CallIsEnabled(c: Conversation, n: Names, o: Oracles, identity: string, fit: Fit, g: Loops, side: Side)
    requires LoopsOk(c, n, o, identity, g) && !g.At(side).Done() && (g.At(side).Sending() || g.sys.Inbox(side) != [])
    requires NextFits(o, fit, g, side)
    ensures TickOf(o, fit, g, Next(side)).Some?
  {
    hide Shaped, Inv, ClientOk, ServerOk, Step, Perform, Find, Closed, CallFits, SyncNext;
    CallSucceeds(c, n, o, identity, g, side);
    StepIsEnabled(g.sys, side, CallOf(o, g, side), Clear(None));
  }

  lemma SenderIsRole(c: Conversation, n: Names, id: string)
    requires Shaped(c, n) && id in StateMap(c.states) && !StateMap(c.states)[id].Terminal()
    ensures Sender(StateMap(c.states)[id]) == Some("client") || Sender(StateMap(c.states)[id]) == Some("server")
  {
    hide StateMap;
    assert IndexedOk(c, id);
  }

  lemma SomeoneSends(c: Conversation, n: Names, o: Oracles, identity: string, g: Loops)
    requires LoopsOk(c, n, o, identity, g) && g.sys.toLeft == [] && g.sys.toRight == []
    requires !g.client.Done() && !g.server.Done()
    ensures g.client.Sending() || g.server.Sending()
  {
    hide Shaped, Path, ClientAt, ServerAt, ClientOk, ServerOk, StateMap, Find, Closed, LinkOk, Messages;
    LoopStands(c, n, o, identity, g, Left);
    LoopStands(c, n, o, identity, g, Right);
    LevelLoops(c, n, o, identity, g);
    assert IndexedOk(c, g.sys.left.session.machine.current);
    SenderIsRole(c, n, g.sys.left.session.machine.current);
  }

  lemma LoopThatMoves(c: Conversation, n: Names, o: Oracles, identity: string, g: Loops) returns (side: Side)
    requires LoopsOk(c, n, o, identity, g) && (!g.client.Done() || !g.server.Done())
    ensures !g.At(side).Done() && (g.At(side).Sending() || g.sys.Inbox(side) != [])
  {
    hide Shaped, Inv, ClientOk, ServerOk;
    if g.client.Done() {
      StoppedPeer(c, n, o, identity, g, Right);
      side := Right;
    } else if g.server.Done() {
      StoppedPeer(c, n, o, identity, g, Left);
      side := Left;
    } else if g.sys.toLeft != [] || g.client.Sending() {
      side := Left;
    } else {
      if g.sys.toRight == [] { SomeoneSends(c, n, o, identity, g); }
      side := Right;
    }
  }

  lemma Progress(c: Conversation, n: Names, o: Oracles, identity: string, fit: Fit, g: Loops) returns (tick: Tick)
    requires LoopsOk(c, n, o, identity, g) && NextFits(o, fit, g, Left) && NextFits(o, fit, g, Right)
    requires !g.client.Done() || !g.server.Done() || g.sys.left.open || g.sys.right.open
    ensures TickOf(o, fit, g, tick).Some?
  {
    hide LoopsOk, Step, CallFits, SyncNext;
    if g.client.Done() && g.server.Done() {
      var side := if g.sys.left.open then Left else Right;
      DropStep(g.sys, side);
      tick := Retire(side);
    } else {
      var side := LoopThatMoves(c, n, o, identity, g);
      CallIsEnabled(c, n, o, identity, fit, g, side);
      tick := Next(side);
    }
  }

  // ----- What the methods return

  /** `outcome` is what the method of one side returns when its calls meet the answers of the run. */
  ghost predicate Returns(c: Conversation, o: Oracles, identity: string, planIdentity: string, fit: Fit,
                          run: seq<Loops>, ticks: seq<Tick>, side: Side, outcome: SyncOutcome)
    requires |run| == |ticks| + 1
  {
    var start := SyncRun(if side == Left then ClientBegin(o.client) else ServerBegin(),
                         Initial(c, RoleName(side), identity, planIdentity).machine);
    SyncEnds(side == Left, SyncOver(side == Left, o.At(side), start, Script(o, fit, run, ticks, side)), outcome)
  }

  /** The outcome of a method is that of the last configuration. */
  lemma RunReturns(c: Conversation, n: Names, o: Oracles, identity: string, planIdentity: string, fit: Fit,
                   run: seq<Loops>, ticks: seq<Tick>)
    requires Shaped(c, n) && IsRun(o, fit, run, ticks) && run[0] == Begin(c, o, identity, planIdentity)
    ensures forall side: Side, outcome ::
              Returns(c, o, identity, planIdentity, fit, run, ticks, side, outcome) <==>
              SyncEnds(side == Left, RunOf(run[|ticks|], side), outcome)
  {
    hide Shaped, TickOf, SyncOver, Script, Find, Closed, ClientBegin;
    ShapedSides(c, n);
    RunIsLoop(o, fit, run, ticks, Left);
    RunIsLoop(o, fit, run, ticks, Right);
  }

  /** The reports of both methods when the client's oracle is first silent in round `r`. */
  function ReportAt(o: Oracles, r: nat, side: Side): SyncReport {
    var s := |Values(o.server, r)|;
    if side == Left then SyncReport(r, s, 3 * r + s + 1, true) else SyncReport(s, r, 3 * r + s + 1, true)
  }

  /** All messages of the first `r` rounds have been received, in order, and nothing else was carried. */
  ghost predicate Delivered(o: Oracles, g: Loops, r: nat) {
    && (forall side: Side, f :: f in g.sys.At(side).session.trace && f.Data? ==> exists message :: Carries(f, message))
    && g.client.outgoing == g.server.incoming == Values(o.client, r) && |g.client.outgoing| == r
    && g.server.outgoing == g.client.incoming == Values(o.server, r)
  }

  ghost predicate BothComplete(o: Oracles, g: Loops) {
    exists r: nat ::
      && r < 1024 && AllGenerate(o.client, r) && o.client(r).None? && Delivered(o, g, r)
      && forall side: Side :: SyncEnds(side == Left, RunOf(g, side), Synced(ReportAt(o, r, side)))
  }

  ghost predicate BothHitLimit(o: Oracles, g: Loops) {
    && AllGenerate(o.client, 1024) && Delivered(o, g, 1024)
    && forall side: Side :: SyncEnds(side == Left, RunOf(g, side), LimitHit)
  }

  /** The machine of a loop that has returned stands at the end and has counted its frames. */
  lemma FinishedMachine(c: Conversation, n: Names, o: Oracles, identity: string, g: Loops, side: Side)
    requires LoopsOk(c, n, o, identity, g) && g.sys.At(side).session.machine.current == n.end
    ensures var s := g.sys.At(side).session;
            s.machine.Ready() && s.machine.Local().End? && s.machine.sequence == |s.trace|
  {
    hide Path, Find, Closed, RunTrace, ClientAt, ServerAt, GoodSync, Messages, Sound, LinkOk, StateMap;
    ShapedSides(c, n);
    ConsistentPeer(c, identity, g.sys, side);
    LoopStands(c, n, o, identity, g, side);
    LocalIsProjected(c, RoleName(side), g.sys.At(side).session.machine);
  }

  lemma Conserved(c: Conversation, n: Names, o: Oracles, identity: string, g: Loops)
    requires LoopsOk(c, n, o, identity, g) && g.client.Done() && g.server.Done()
    ensures BothComplete(o, g) || BothHitLimit(o, g)
  {
    hide Shaped, Path, Find, Closed, RunTrace, Messages, StateMap, Values, LinkOk;
    StoppedPeer(c, n, o, identity, g, Left);
    StoppedPeer(c, n, o, identity, g, Right);
    LevelLoops(c, n, o, identity, g);
    ShapedSides(c, n);
    if g.client.pc.Returned? {
      FinishedMachine(c, n, o, identity, g, Left);
      FinishedMachine(c, n, o, identity, g, Right);
      var r := g.client.round;
      assert Delivered(o, g, r);
      assert SyncEnds(true, RunOf(g, Left), Synced(ReportAt(o, r, Left)));
      assert SyncEnds(false, RunOf(g, Right), Synced(ReportAt(o, r, Right)));
    }
  }

  lemma WeightIsBounded(c: Conversation, n: Names, o: Oracles, identity: string, g: Loops)
    requires LoopsOk(c, n, o, identity, g)
    ensures Weight(g.sys) <= 8196
  {
    hide Shaped, Inv, Messages, Values, AllGenerate;
  }

  // ----- Envelopes over the size limit

  /** A loop whose next envelope does not fit, or that has failed because of one. */
  ghost predicate Doomed(o: Oracles, fit: Fit, g: Loops, side: Side) {
    !NextFits(o, fit, g, side) || g.At(side).pc.Rejected?
  }

  lemma DoomedStays(o: Oracles, fit: Fit, g: Loops, tick: Tick, side: Side)
    requires Doomed(o, fit, g, side) && TickOf(o, fit, g, tick).Some?
    ensures Doomed(o, fit, TickOf(o, fit, g, tick).value, side)
  {
    hide Perform, Find, Closed, SyncThen, SyncAction, Step, ReplyAt, Abandoned, Emit;
    TickIsCall(o, fit, g, tick);
    if tick.Next? && tick.side == side {
      ReplyIsEvent(g.sys, side, CallOf(o, g, side), WeatherOf(o, fit, g, side));
    } else {
      assert RunOf(TickOf(o, fit, g, tick).value, side) == RunOf(g, side);
    }
  }

  lemma DoomedFails(o: Oracles, fit: Fit, run: seq<Loops>, ticks: seq<Tick>, i: nat, side: Side)
    requires IsRun(o, fit, run, ticks) && i <= |ticks| && Doomed(o, fit, run[i], side)
    ensures Doomed(o, fit, run[|ticks|], side)
  {
    hide TickOf, Doomed;
    for j := i to |ticks|
      invariant Doomed(o, fit, run[j], side)
    {
      assert TickOf(o, fit, run[j], ticks[j]) == Some(run[j + 1]);
      DoomedStays(o, fit, run[j], ticks[j], side);
    }
  }

  /** A loop with one of these outcomes has nothing more to send. */
  lemma DoneIsNotDoomed(o: Oracles, fit: Fit, g: Loops, side: Side, outcome: SyncOutcome)
    requires SyncEnds(side == Left, RunOf(g, side), outcome) && (outcome.Synced? || outcome.LimitHit?)
    ensures !Doomed(o, fit, g, side)
  {
  }

  lemma DoomedIsNoEnd(o: Oracles, fit: Fit, g: Loops, side: Side)
    requires Doomed(o, fit, g, side)
    ensures !BothComplete(o, g) && !BothHitLimit(o, g)
  {
    hide Delivered, AllGenerate, Doomed, SyncEnds;
    if BothComplete(o, g) {
      var r: nat :| forall any: Side :: SyncEnds(any == Left, RunOf(g, any), Synced(ReportAt(o, r, any)));
      assert SyncEnds(side == Left, RunOf(g, side), Synced(ReportAt(o, r, side)));
      DoneIsNotDoomed(o, fit, g, side, Synced(ReportAt(o, r, side)));
    }
    if BothHitLimit(o, g) {
      assert SyncEnds(side == Left, RunOf(g, side), LimitHit);
      DoneIsNotDoomed(o, fit, g, side, LimitHit);
    }
  }

  // ----- Conservation

  /** Both methods complete: with `r` messages of the client and the server's answers, each received by the other in order. */
  ghost predicate Completed(c: Conversation, o: Oracles, identity: string, planIdentity: string, fit: Fit,
                            run: seq<Loops>, ticks: seq<Tick>)
    requires |run| == |ticks| + 1
  {
    exists r: nat ::
      && r < 1024 && AllGenerate(o.client, r) && o.client(r).None? && Delivered(o, run[|ticks|], r)
      && forall side: Side ::
           Returns(c, o, identity, planIdentity, fit, run, ticks, side, Synced(ReportAt(o, r, side)))
  }

  /** Both methods hit the round limit, with every message received. */
  ghost predicate LimitReached(c: Conversation, o: Oracles, identity: string, planIdentity: string, fit: Fit,
                               run: seq<Loops>, ticks: seq<Tick>)
    requires |run| == |ticks| + 1
  {
    && AllGenerate(o.client, 1024) && Delivered(o, run[|ticks|], 1024)
    && forall side: Side :: Returns(c, o, identity, planIdentity, fit, run, ticks, side, LimitHit)
  }

  lemma OutcomesAreReturned(c: Conversation, o: Oracles, identity: string, planIdentity: string, fit: Fit,
                            run: seq<Loops>, ticks: seq<Tick>)
    requires |run| == |ticks| + 1
    requires forall side: Side, outcome ::
               Returns(c, o, identity, planIdentity, fit, run, ticks, side, outcome) <==>
               SyncEnds(side == Left, RunOf(run[|ticks|], side), outcome)
    ensures BothComplete(o, run[|ticks|]) <==> Completed(c, o, identity, planIdentity, fit, run, ticks)
    ensures BothHitLimit(o, run[|ticks|]) <==> LimitReached(c, o, identity, planIdentity, fit, run, ticks)
  {
    hide Returns, SyncEnds, Delivered, AllGenerate, ReportAt;
    var g := run[|ticks|];
    if BothComplete(o, g) {
      var r: nat :|
        && r < 1024 && AllGenerate(o.client, r) && o.client(r).None? && Delivered(o, g, r)
        && forall side: Side :: SyncEnds(side == Left, RunOf(g, side), Synced(ReportAt(o, r, side)));
      forall side: Side
        ensures Returns(c, o, identity, planIdentity, fit, run, ticks, side, Synced(ReportAt(o, r, side)))
      {
        assert SyncEnds(side == Left, RunOf(g, side), Synced(ReportAt(o, r, side)));
      }
    }
    if Completed(c, o, identity, planIdentity, fit, run, ticks) {
      var r: nat :|
        && r < 1024 && AllGenerate(o.client, r) && o.client(r).None? && Delivered(o, g, r)
        && forall side: Side ::
             Returns(c, o, identity, planIdentity, fit, run, ticks, side, Synced(ReportAt(o, r, side)));
      forall side: Side ensures SyncEnds(side == Left, RunOf(g, side), Synced(ReportAt(o, r, side))) {
        assert Returns(c, o, identity, planIdentity, fit, run, ticks, side, Synced(ReportAt(o, r, side)));
      }
    }
    assert forall side: Side :: SyncEnds(side == Left, RunOf(g, side), LimitHit) <==>
                                Returns(c, o, identity, planIdentity, fit, run, ticks, side, LimitHit);
  }

  /**
   Draft-sync conservation. For all oracles and every schedule over a reliable
   channel: as long as all envelopes are within the size limit, at most 8196 steps
   are made. When no further step is possible, all envelopes were within the limit if
   and only if either both methods complete, in the first round r in which the
   client's oracle is silent, the client having sent r messages, the server s, each
   received by the other in order and both counting 3r + s + 1 frames, or both
   methods hit the round limit, every message received as well.
   */
  lemma DraftSyncConserves(c: Conversation, n: Names, o: Oracles, identity: string, planIdentity: string, fit: Fit,
                           run: seq<Loops>, ticks: seq<Tick>)
    requires Shaped(c, n) && IsRun(o, fit, run, ticks) && run[0] == Begin(c, o, identity, planIdentity)
    ensures AllFit(o, fit, run) ==> |ticks| <= 8196
    ensures (forall tick :: TickOf(o, fit, run[|ticks|], tick).None?) ==>
              (AllFit(o, fit, run) <==>
                 Completed(c, o, identity, planIdentity, fit, run, ticks) ||
                 LimitReached(c, o, identity, planIdentity, fit, run, ticks))
  {
    hide Shaped, LoopsOk, Weight, TickOf, AllGenerate, Begin, Returns, NextFits, Delivered, SyncEnds;
    RunReturns(c, n, o, identity, planIdentity, fit, run, ticks);
    OutcomesAreReturned(c, o, identity, planIdentity, fit, run, ticks);
    var g := run[|ticks|];
    if AllFit(o, fit, run) {
      ReachableOk(c, n, o, identity, planIdentity, fit, run, ticks);
      WeightIsBounded(c, n, o, identity, g);
      if forall tick :: TickOf(o, fit, g, tick).None? {
        if !g.client.Done() || !g.server.Done() { var tick := Progress(c, n, o, identity, fit, g); }
        Conserved(c, n, o, identity, g);
      }
    } else {
      var i, side: Side :| 0 <= i < |run| && !NextFits(o, fit, run[i], side);
      DoomedFails(o, fit, run, ticks, i, side);
      DoomedIsNoEnd(o, fit, g, side);
    }
  }
}
