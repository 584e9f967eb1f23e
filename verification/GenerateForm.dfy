/** The Generate closed form: what both methods report on a reliable channel, frame by frame. */
module GenerateForm {
  import opened Basics
  import opened Conversations
  import opened Traces
  import opened Projection
  import opened Machines
  import opened Sessions
  import opened Systems
  import opened Agreement
  import opened ClientServer
  import opened GenerateLoops
  import opened GenerateRuns
  import opened GenerateTheorems
  import opened GenerateTraces

  // ----- The closed form

  function MinTokens(p: Params): nat {
    if p.cancelAfter.Some? && p.cancelAfter.value < p.limit then p.cancelAfter.value else p.limit
  }

  /** Whether the client cancels: its cancel point is not above the limit. */
  predicate Cancelled(p: Params) { p.cancelAfter.Some? && p.cancelAfter.value <= p.limit }

  /** Frame `i` of the exchange: the prompt, then choice, token and answer in turn, and the end. */
  function FrameAt(n: Names, p: Params, i: nat): Frame {
    var m := MinTokens(p);
    if i == 0 then Data("client", "server", "prompt", Some(Obj(map["text" := Str(p.text)])))
    else if i == 3 * m + 1 then
      if Cancelled(p) then Frame.Cancel("client", "server", n.scope) else Frame.Select("server", "done")
    else if i % 3 == 1 then Frame.Select("server", "token")
    else if i % 3 == 2 then Data("server", "client", "token", Some(Obj(map["id" := Number(i / 3 + 1)])))
    else Frame.Select("client", if Cancelled(p) && i == 3 * m then "cancel" else "continue")
  }

  /** The report that both methods return: frames, tokens, complete, successful, no failure, final state and trace. */
  function FullReport(n: Names, p: Params): Report {
    var m := MinTokens(p);
    Report(3 * m + 2, seq(m, i => i + 1), true, true, None, n.end, seq(3 * m + 2, i requires i >= 0 => FrameAt(n, p, i)))
  }

  ghost predicate BothReport(n: Names, p: Params, g: Loops) {
    && ClientEnds(ClientOf(g), Reported(FullReport(n, p)))
    && ServerEnds(ServerOf(g), Reported(FullReport(n, p)))
  }

  /** A loop's trace never holds a null payload. */
  lemma OwnTraceIsNullFree(role: string, t: seq<Frame>)
    requires GoodData(role, t) && Copied(role, t)
    ensures NormalTrace(t) == t
  {
    forall i | 0 <= i < |t| ensures Normal(t[i]) == t[i] {
      if t[i].Data? && t[i].Author() == role { assert if role == "client" then HasPrompt(t[i]) else TokenIdOf(t[i]).Some?; }
    }
  }

  lemma FinishedTraces(c: Conversation, n: Names, p: Params, identity: string, g: Loops)
    requires CalmOk(c, n, p, identity, g) && g.client.Done() && g.server.Done()
    ensures g.sys.left.session.trace == g.sys.right.session.trace
  {
    hide Shaped, Path, ClientAt, ServerAt, Find, Closed, RunTrace, StateMap, TokenIds, Answered, GoodData, Copied;
    ShapedSides(c, n);
    CalmStands(c, n, p, identity, g);
    TerminalPeer(c, identity, g.sys, Left);
    TerminalPeer(c, identity, g.sys, Right);
    var l, r := g.sys.left.session.trace, g.sys.right.session.trace;
    OwnTraceIsNullFree("client", l);
    OwnTraceIsNullFree("server", r);
    assert Frames([]) == [];
    assert Clean(l) == l && Clean(r) == r;
    assert NormalTrace(l) == NormalTrace(r);
  }

  lemma FinishedCounts(c: Conversation, n: Names, p: Params, identity: string, g: Loops)
    requires CalmOk(c, n, p, identity, g) && g.client.Done() && g.server.Done()
    ensures g.client.tokens == g.server.tokens == CountTo(MinTokens(p))
    ensures |g.sys.left.session.trace| == 3 * MinTokens(p) + 2
    ensures g.sys.left.session.machine.current == g.sys.right.session.machine.current == n.end
    ensures g.client.pc.ClientReturned? && g.server.pc.ServerReturned?
  {
    hide Shaped, Inv, Find, Closed, RunTrace, StateMap, TokenIds, Answered, GoodData, Copied, CountTo;
    FinishedTraces(c, n, p, identity, g);
    var l := g.sys.left.session;
    assert Clean(l.trace) == l.trace;
    assert |g.client.tokens| == |g.server.tokens|;
    assert Last(l).Select? || Last(l).Cancel?;
    assert |g.server.tokens| == MinTokens(p);
  }

  /** The machine of a finished loop stands at the end and has counted its frames. */
  lemma FinishedMachine(c: Conversation, n: Names, p: Params, identity: string, g: Loops, side: Side)
    requires CalmOk(c, n, p, identity, g) && g.sys.At(side).session.machine.current == n.end
    ensures var s := g.sys.At(side).session;
            s.machine.Ready() && s.machine.Local().End? && s.machine.sequence == |s.trace|
  {
    hide Path, Find, Closed, RunTrace, ClientOk, ServerOk, Sound, LinkOk;
    GoingSides(c, n, p, identity, g, side);
    LocalIsProjected(c, RoleName(side), g.sys.At(side).session.machine);
  }

  /** How the common trace ends: with the cancellation exactly when the client cancels. */
  lemma FinishedEnds(c: Conversation, n: Names, p: Params, identity: string, g: Loops)
    requires CalmOk(c, n, p, identity, g) && g.client.Done() && g.server.Done() && p.cancelAfter != Some(0)
    ensures |g.sys.left.session.trace| > 0
    ensures var f := Last(g.sys.left.session);
            if Cancelled(p) then f.Cancel? else f.Select?
  {
    hide Shaped, Inv, Find, Closed, RunTrace, StateMap, TokenIds, Answered, GoodData, Copied, CountTo;
    FinishedTraces(c, n, p, identity, g);
    FinishedCounts(c, n, p, identity, g);
    assert |g.client.tokens| == MinTokens(p);
  }

  /** Both traces are finished stories. */
  lemma FinishedStories(c: Conversation, n: Names, p: Params, identity: string, g: Loops)
    requires CalmOk(c, n, p, identity, g) && Stories(c, n, p, g) && g.client.Done() && g.server.Done()
    requires g.sys.left.session.machine.current == g.sys.right.session.machine.current == n.end
    ensures Ended(n, "client", p.text, g.sys.left.session.trace) && Ended(n, "server", p.text, g.sys.right.session.trace)
  {
    hide Path, Find, Closed, RunTrace, ClientOk, ServerOk, Ended, Cancelling, Steady;
    ShapedIsDistinct(c, n);
    PlaceOf(c, identity, RoleOf(c, Left), g.sys.left);
    PlaceOf(c, identity, RoleOf(c, Right), g.sys.right);
  }

  /** All but the last frames of an exchange, or the last two of a cancelled one, are beats. */
  lemma BeatOf(n: Names, role: string, text: string, t: seq<Frame>, i: nat)
    requires Ended(n, role, text, t) && i < |t| - 1 && (t[|t| - 1].Cancel? ==> i < |t| - 2)
    ensures Beat(role, text, i, t[i])
  {
    hide Beat;
    assert t[..|t| - 1][i] == t[i];
    if t[|t| - 1].Cancel? { assert t[..|t| - 1][..|t| - 2][i] == t[i]; }
  }

  /** A beat of both stories is known entirely. */
  lemma BeatsAreFrames(text: string, i: nat, f: Frame)
    requires Beat("client", text, i, f) && Beat("server", text, i, f)
    ensures f == if i == 0 then Data("client", "server", "prompt", Some(Obj(map["text" := Str(text)])))
                 else if i % 3 == 1 then Frame.Select("server", "token")
                 else if i % 3 == 2 then Data("server", "client", "token", Some(Obj(map["id" := Number(i / 3 + 1)])))
                 else Frame.Select("client", "continue")
  {
  }

  /** A trace that tells both stories to the end is the exchange, frame by frame. */
  lemma StoriesAreTheExchange(n: Names, p: Params, t: seq<Frame>)
    requires Ended(n, "client", p.text, t) && Ended(n, "server", p.text, t) && |t| == 3 * MinTokens(p) + 2
    requires if Cancelled(p) then t[|t| - 1].Cancel? else t[|t| - 1].Select?
    ensures forall i :: 0 <= i < |t| ==> t[i] == FrameAt(n, p, i)
  {
    hide Beat;
    var last := |t| - 1;
    forall i | 0 <= i < |t| ensures t[i] == FrameAt(n, p, i) {
      if i < last && !(Cancelled(p) && i == last - 1) {
        BeatOf(n, "client", p.text, t, i);
        BeatOf(n, "server", p.text, t, i);
        BeatsAreFrames(p.text, i, t[i]);
      } else if i == last - 1 {
        assert t[..last][last - 1] == t[i];
      }
    }
  }

  lemma FinishedReports(c: Conversation, n: Names, p: Params, identity: string, g: Loops)
    requires CalmOk(c, n, p, identity, g) && Stories(c, n, p, g) && g.client.Done() && g.server.Done() && p.cancelAfter != Some(0)
    ensures BothReport(n, p, g)
  {
    hide CalmOk, Find, Closed, FrameAt, Ended, MinTokens;
    FinishedTraces(c, n, p, identity, g);
    FinishedCounts(c, n, p, identity, g);
    FinishedEnds(c, n, p, identity, g);
    FinishedMachine(c, n, p, identity, g, Left);
    FinishedMachine(c, n, p, identity, g, Right);
    FinishedStories(c, n, p, identity, g);
    var t := g.sys.left.session.trace;
    StoriesAreTheExchange(n, p, t);
    assert t == FullReport(n, p).trace;
    assert g.client.tokens == FullReport(n, p).tokens;
  }

  /** A loop whose next envelope does not fit, or that has returned an error because of one. */
  ghost predicate Doomed(fit: Fit, p: Params, g: Loops, side: Side) {
    || !NextFits(fit, p, g, side)
    || (if side == Left then g.client.pc.ClientRejected? else g.server.pc.ServerRejected?)
  }

  /** Such a loop never returns a report. */
  lemma DoomedStays(fit: Fit, p: Params, g: Loops, tick: Tick, side: Side)
    requires Doomed(fit, p, g, side) && FairTick(fit, p, g, tick) && TickOf(p, g, tick).Some?
    ensures Doomed(fit, p, TickOf(p, g, tick).value, side)
  {
    hide Perform, Find, Closed, Emit, ClientThen, ServerThen, Step, ReplyAt;
    TickIsCall(p, g, tick);
    if tick.Next? {
      var call := CallOf(p, g, tick.side);
      StepPerforms(g.sys, tick.side, call, tick.weather);
      ReplyIsEvent(g.sys, tick.side, call, tick.weather);
      if tick.side == side { OversizeErrs(g.sys, side, call); }
    }
  }

  lemma DoomedNeverReports(fit: Fit, p: Params, run: seq<Loops>, ticks: seq<Tick>, i: nat, side: Side)
    requires IsRun(p, run, ticks) && FairRun(fit, p, run, ticks) && i <= |ticks| && Doomed(fit, p, run[i], side)
    ensures Doomed(fit, p, run[|ticks|], side)
  {
    hide TickOf, Doomed;
    for j := i to |ticks|
      invariant Doomed(fit, p, run[j], side)
    {
      assert TickOf(p, run[j], ticks[j]) == Some(run[j + 1]) && FairTick(fit, p, run[j], ticks[j]);
      DoomedStays(fit, p, run[j], ticks[j], side);
    }
  }

  /** A loop that has reported has nothing more to send. */
  lemma ReportedIsNotDoomed(fit: Fit, n: Names, p: Params, g: Loops, side: Side)
    requires BothReport(n, p, g)
    ensures !Doomed(fit, p, g, side)
  {
  }

  /** Both methods return the full report. */
  ghost predicate ReportsInFull(c: Conversation, n: Names, p: Params, identity: string, planIdentity: string,
                                run: seq<Loops>, ticks: seq<Tick>)
    requires |run| == |ticks| + 1
  {
    && ClientReturns(c, p, identity, planIdentity, run, ticks, Reported(FullReport(n, p)))
    && ServerReturns(c, p, identity, planIdentity, run, ticks, Reported(FullReport(n, p)))
  }

  /**
   The Generate closed form, over a reliable channel, for every token limit and every
   cancel point of at least one. As long as all envelopes are within the size limit
   the loops make at most 6n + 6 steps. When no further step is possible, all
   envelopes were within the limit if and only if both methods return the same
   report of success, with the tokens 1 to min(n, k), 3 min(n, k) + 2 frames and
   exactly the frames of `FrameAt` as its trace.
   */
  lemma GenerateClosedForm(c: Conversation, n: Names, p: Params, identity: string, planIdentity: string, fit: Fit,
                           run: seq<Loops>, ticks: seq<Tick>)
    requires Shaped(c, n) && p.limit < U64_LIMIT && p.cancelAfter != Some(0)
    requires IsRun(p, run, ticks) && run[0] == Begin(c, p, identity, planIdentity) && FairRun(fit, p, run, ticks)
    ensures AllFit(fit, p, run) ==> |ticks| <= 6 * p.limit + 6
    ensures (forall tick :: !Enabled(fit, p, run[|ticks|], tick)) ==>
              (AllFit(fit, p, run) <==> ReportsInFull(c, n, p, identity, planIdentity, run, ticks))
  {
    hide Shaped, CalmOk, FullReport, Weight, TickOf, Enabled, Begin, ClientReturns, ServerReturns, CallFits, Stories, LoopsOk, ClientEnds, ServerEnds;
    RunReturns(c, n, p, identity, planIdentity, run, ticks);
    var g := run[|ticks|];
    if AllFit(fit, p, run) {
      ReachableCalm(c, n, p, identity, planIdentity, fit, run, ticks);
      ReachableTells(c, n, p, identity, planIdentity, run, ticks);
      CalmIsBounded(c, n, p, identity, g);
      if forall tick :: !Enabled(fit, p, g, tick) {
        if !g.client.Done() || !g.server.Done() {
          var tick := CalmProgress(c, n, p, identity, fit, g);
        }
        FinishedReports(c, n, p, identity, g);
      }
    } else if ReportsInFull(c, n, p, identity, planIdentity, run, ticks) {
      var i, side: Side :| 0 <= i < |run| && !NextFits(fit, p, run[i], side);
      DoomedNeverReports(fit, p, run, ticks, i, side);
      ReportedIsNotDoomed(fit, n, p, g, side);
    }
  }
}
