/**
 The two Generate loops under faults: when every failure that can occur is declared
 at every state, both methods return a report in every schedule.
 */
module GenerateFaults {
  import opened Basics
  import opened Conversations
  import opened Traces
  import opened Projection
  import opened Machines
  import opened Sessions
  import opened Systems
  import opened Agreement
  import opened ClientServer
  import opened GenerateLoops
  import opened GenerateRuns
  import opened GenerateTheorems

  // ----- Declared failures

  /** Every state that is not terminal has an edge for this failure. */
  ghost predicate Declares(c: Conversation, failure: string) {
    forall id :: id in StateMap(c.states) && !StateMap(c.states)[id].Terminal() ==> failure in StateMap(c.states)[id].onFailure
  }

  /** The failure a call reports if it meets an error in this weather. */
  function FailureOf(w: Weather): Option<string> {
    match w
    case Inject(failure) => Some(failure)
    case Clear(closedAs) => if closedAs.Some? then closedAs else Some("transport.closed")
    case Oversize => None
  }

  /** Any number of failures may be injected and closed channels renamed, as long as all are declared. */
  ghost predicate Tame(c: Conversation, w: Weather) {
    FailureOf(w).Some? && Declares(c, FailureOf(w).value)
  }

  ghost predicate TameTick(c: Conversation, tick: Tick) { tick.Next? ==> Tame(c, tick.weather) }

  ghost predicate TameRun(c: Conversation, ticks: seq<Tick>) { forall i :: 0 <= i < |ticks| ==> TameTick(c, ticks[i]) }

  ghost predicate TameEnabled(c: Conversation, p: Params, g: Loops, tick: Tick) {
    TameTick(c, tick) && TickOf(p, g, tick).Some?
  }

  /** The error of a call names the failure of its weather. */
  lemma ErrorOfWeather(sys: System, side: Side, call: Call, w: Weather)
    requires EventAt(sys, side, call, w).Some? && Failing(EventAt(sys, side, call, w).value)
    ensures match EventAt(sys, side, call, w).value
            case Sending(_, refusal) => refusal.value.TransportFailure() == FailureOf(w)
            case Receiving(reply) => reply.error.TransportFailure() == FailureOf(w)
  {
  }

  /** A declared failure is recorded at every state that is not terminal. */
  lemma DeclaredIsRecorded(c: Conversation, role: string, m: Machine, id: string, trace: seq<Frame>, error: RuntimeError)
    requires Sound(c) && Runs(c, role, m) && id in StateMap(c.states) && !StateMap(c.states)[id].Terminal()
    requires error.TransportFailure().Some? && Declares(c, error.TransportFailure().value)
    ensures Find(m.endpoint.states, id).Some? && RecordFault(m, id, trace, error).Ok?
  {
    hide StateMap, Find;
    FindProjected(c, role, id);
  }

  /** A call that meets a declared failure succeeds: it records the fault. */
  lemma FaultSucceeds(c: Conversation, role: string, s: Session, event: Event)
    requires Sound(c) && Consistent(c, role, s) && s.machine.Ready() && Failing(event)
    requires !StateMap(c.states)[s.machine.current].Terminal()
    requires event.Sending? ==> Emit(s.machine, event.action).Ok?
    requires var error := if event.Sending? then event.refusal.value else event.reply.error;
             error.TransportFailure().Some? && Declares(c, error.TransportFailure().value)
    ensures Perform(s, event).Ok?
  {
    hide StateMap, Find, Closed, RunTrace, ObserveAt, Emit, Declares;
    match event {
      case Sending(a, refusal) =>
        EmitIsStep(c, role, s.machine, a);
        DeclaredIsRecorded(c, role, Emit(s.machine, a).value.machine, s.machine.current, s.trace, refusal.value);
      case Receiving(reply) =>
        DeclaredIsRecorded(c, role, s.machine, s.machine.current, s.trace, reply.error);
    }
  }

  // ----- Every tame call succeeds

  lemma TameCallSucceeds(c: Conversation, n: Names, p: Params, identity: string, g: Loops, side: Side, w: Weather)
    requires GoingOk(c, n, p, identity, g) && !g.DoneAt(side) && Tame(c, w)
    requires EventAt(g.sys, side, CallOf(p, g, side), w).Some?
    ensures g.sys.At(side).session.machine.Ready()
    ensures Perform(g.sys.At(side).session, EventAt(g.sys, side, CallOf(p, g, side), w).value).Ok?
  {
    hide GoingOk, StateMap, Perform, Find, Closed, Declares, Emit;
    CallSucceeds(c, n, p, identity, g, side, w);
    var call := CallOf(p, g, side);
    var event := EventAt(g.sys, side, call, w).value;
    if Failing(event) {
      GoingSides(c, n, p, identity, g, side);
      LoopStands(c, n, p, identity, g, side);
      ErrorOfWeather(g.sys, side, call, w);
      if SendingAt(g, side) { CanEmit(c, n, p, identity, g, side); }
      FaultSucceeds(c, RoleName(side), g.sys.At(side).session, event);
    }
  }

  /** A tame step keeps both loops going and makes progress. */
  lemma TameTickKeeps(c: Conversation, n: Names, p: Params, identity: string, g: Loops, tick: Tick)
    requires GoingOk(c, n, p, identity, g) && TameTick(c, tick) && TickOf(p, g, tick).Some?
    ensures var g' := TickOf(p, g, tick).value; GoingOk(c, n, p, identity, g') && Weight(g'.sys) > Weight(g.sys)
  {
    hide GoingOk, Step, Perform, Find, Closed, ClientNext, ServerNext, ReplyAt, Tame;
    match tick {
      case Retire(side) => RetireGoesOn(c, n, p, identity, g, side);
      case Next(side, w) =>
        CallSucceeds(c, n, p, identity, g, side, w);
        StepPerforms(g.sys, side, CallOf(p, g, side), w);
        TameCallSucceeds(c, n, p, identity, g, side, w);
        CallGoesOn(c, n, p, identity, g, side, w, EventAt(g.sys, side, CallOf(p, g, side), w).value);
    }
  }

  lemma ReachableGoes(c: Conversation, n: Names, p: Params, identity: string, planIdentity: string,
                      run: seq<Loops>, ticks: seq<Tick>)
    requires Shaped(c, n) && p.limit < U64_LIMIT && p.cancelAfter != Some(0) && TameRun(c, ticks)
    requires IsRun(p, run, ticks) && run[0] == Begin(c, p, identity, planIdentity)
    ensures GoingOk(c, n, p, identity, run[|ticks|]) && Weight(run[|ticks|].sys) >= |ticks|
  {
    hide GoingOk, TickOf, Shaped, Begin, Weight, TameTick;
    BeginGoes(c, n, p, identity, planIdentity);
    for i := 0 to |ticks|
      invariant GoingOk(c, n, p, identity, run[i]) && Weight(run[i].sys) >= i
    {
      assert TickOf(p, run[i], ticks[i]) == Some(run[i + 1]) && TameTick(c, ticks[i]);
      TameTickKeeps(c, n, p, identity, run[i], ticks[i]);
    }
  }

  // ----- Progress

  /** A loop that waits in vain for mail has a peer that still runs or still holds its end. */
  lemma WaitingPeer(c: Conversation, n: Names, p: Params, identity: string, g: Loops, side: Side)
    requires GoingOk(c, n, p, identity, g) && !g.DoneAt(side)
    requires EventAt(g.sys, side, CallOf(p, g, side), Clear(None)).None?
    ensures g.sys.At(side.Other()).open
    ensures !g.DoneAt(side.Other()) ==> EventAt(g.sys, side.Other(), CallOf(p, g, side.Other()), Clear(None)).Some?
  {
    hide LoopsOk, Find, Closed;
    var other := side.Other();
    CallSucceeds(c, n, p, identity, g, side, Clear(None));
    if !g.DoneAt(other) && EventAt(g.sys, other, CallOf(p, g, other), Clear(None)).None? {
      CallSucceeds(c, n, p, identity, g, other, Clear(None));
      LoopStands(c, n, p, identity, g, Left);
      LoopStands(c, n, p, identity, g, Right);
      SomeoneSends(c, n, p, identity, g);
    }
  }

  /** As long as a loop runs or an end is open, some tame step is possible. */
  lemma TameProgress(c: Conversation, n: Names, p: Params, identity: string, g: Loops) returns (tick: Tick)
    requires GoingOk(c, n, p, identity, g) && Declares(c, "transport.closed")
    requires !g.client.Done() || !g.server.Done() || g.sys.left.open || g.sys.right.open
    ensures TameEnabled(c, p, g, tick)
  {
    hide GoingOk, TickOf, Declares, EventAt;
    var side := if !g.client.Done() || (g.server.Done() && g.sys.left.open) then Left else Right;
    if !g.DoneAt(side) && EventAt(g.sys, side, CallOf(p, g, side), Clear(None)).None? {
      WaitingPeer(c, n, p, identity, g, side);
      side := side.Other();
    }
    if g.DoneAt(side) {
      RetireIsEnabled(p, g, side);
      tick := Retire(side);
    } else {
      CallSucceeds(c, n, p, identity, g, side, Clear(None));
      CallIsEnabled(p, g, side, Clear(None));
      tick := Next(side, Clear(None));
    }
  }

  // ----- Both methods report

  /** What both methods return once nothing can happen any more. */
  ghost predicate BothReturn(c: Conversation, p: Params, identity: string, planIdentity: string,
                             run: seq<Loops>, ticks: seq<Tick>, client: Report, server: Report)
    requires |run| == |ticks| + 1
  {
    && ClientReturns(c, p, identity, planIdentity, run, ticks, Reported(client))
    && ServerReturns(c, p, identity, planIdentity, run, ticks, Reported(server))
  }

  /** A report tells success or the failure that its trace ends with. */
  ghost predicate Explains(r: Report) {
    && r.completed
    && if |r.trace| > 0 && r.trace[|r.trace| - 1].Fault?
       then r.failure == Some(r.trace[|r.trace| - 1].failure) && !r.successful
       else r.failure == None && r.successful
  }

  /** A loop that has returned stands at the end, or at the terminal state of the failure it has recorded. */
  lemma DoneState(c: Conversation, n: Names, p: Params, identity: string, g: Loops, side: Side)
    requires GoingOk(c, n, p, identity, g) && g.DoneAt(side)
    ensures var s := g.sys.At(side).session;
            && s.machine.current in StateMap(c.states)
            && var state := StateMap(c.states)[s.machine.current];
               if Faulted(s.trace) then state.Fail? && state.failure == s.trace[|s.trace| - 1].failure else state.End?
  {
    hide Path, Find, Closed, Inv, Answered, GoodData, TokenIds, CountTo;
    GoingSides(c, n, p, identity, g, side);
    var s := g.sys.At(side).session;
    if Faulted(s.trace) {
      StepStaysIndexed(c, RunTrace(c, s.trace[..|s.trace| - 1]).value, s.trace[|s.trace| - 1]);
    }
  }

  /** The report of a session that stands at the state its trace calls for. */
  lemma ReportExplains(c: Conversation, role: string, s: Session, tokens: seq<nat>)
    requires Sound(c) && Runs(c, role, s.machine)
    requires var state := StateMap(c.states)[s.machine.current];
             if Faulted(s.trace) then state.Fail? && state.failure == s.trace[|s.trace| - 1].failure else state.End?
    ensures s.machine.Ready() && Explains(ReportOf(tokens, s))
  {
    hide StateMap, Find, Closed;
    LocalIsProjected(c, role, s.machine);
  }

  lemma DoneReports(c: Conversation, n: Names, p: Params, identity: string, g: Loops)
    returns (client: Report, server: Report)
    requires GoingOk(c, n, p, identity, g) && g.client.Done() && g.server.Done()
    ensures ClientEnds(ClientOf(g), Reported(client)) && ServerEnds(ServerOf(g), Reported(server))
    ensures Explains(client) && Explains(server)
  {
    hide LoopsOk, Find, Closed, RunTrace, StateMap, Explains, ReportOf;
    GoingSides(c, n, p, identity, g, Left);
    GoingSides(c, n, p, identity, g, Right);
    DoneState(c, n, p, identity, g, Left);
    DoneState(c, n, p, identity, g, Right);
    ReportExplains(c, "client", g.sys.left.session, g.client.tokens);
    ReportExplains(c, "server", g.sys.right.session, g.server.tokens);
    client, server := ReportOf(g.client.tokens, g.sys.left.session), ReportOf(g.server.tokens, g.sys.right.session);
  }

  /**
   Liveness under faults. Whatever failures are injected, at whatever calls, and
   under whatever names closed channels are reported, as long as every state declares
   them and no envelope is over the size limit: every schedule has at most 6n + 8
   steps, and when no further step is possible both methods have returned a report
   that tells success or the failure recorded last, with at most one token lost.
   */
  lemma FaultyRunsReport(c: Conversation, n: Names, p: Params, identity: string, planIdentity: string,
                         run: seq<Loops>, ticks: seq<Tick>)
    requires Shaped(c, n) && p.limit < U64_LIMIT && p.cancelAfter != Some(0) && Declares(c, "transport.closed")
    requires IsRun(p, run, ticks) && run[0] == Begin(c, p, identity, planIdentity) && TameRun(c, ticks)
    ensures |ticks| <= 6 * p.limit + 8
    ensures (forall tick :: !TameEnabled(c, p, run[|ticks|], tick)) ==>
              exists client, server ::
                && BothReturn(c, p, identity, planIdentity, run, ticks, client, server)
                && Explains(client) && Explains(server)
                && client.tokens == CountTo(|client.tokens|) && server.tokens == CountTo(|server.tokens|)
                && |server.tokens| - 1 <= |client.tokens| <= |server.tokens| <= p.limit
  {
    hide Shaped, GoingOk, Weight, TickOf, TameEnabled, Begin, ClientReturns, ServerReturns, Declares, CountTo;
    RunReturns(c, n, p, identity, planIdentity, run, ticks);
    ReachableGoes(c, n, p, identity, planIdentity, run, ticks);
    var g := run[|ticks|];
    WeightIsBounded(c, n, p, identity, g);
    if forall tick :: !TameEnabled(c, p, g, tick) {
      if !g.client.Done() || !g.server.Done() { var tick := TameProgress(c, n, p, identity, g); }
      var client, server := DoneReports(c, n, p, identity, g);
      TokenLossBound(c, n, p, identity, planIdentity, run, ticks, client, server);
      assert BothReturn(c, p, identity, planIdentity, run, ticks, client, server);
    }
  }
}
