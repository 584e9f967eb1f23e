/** The example conversation: two-role token generation with cancellation. */
module Example {
  import opened Basics
  import opened Conversations
  import opened Validation
  import opened Traces
  import opened Systems
  import opened Agreement
  import opened Realisation
  import opened GenerateRuns
  import opened GenerateTheorems
  import opened GenerateForm
  import GenerateLoops
  import opened Sessions
  import opened ClientServer
  import opened GenerateFaults

  const FAILURE_EDGES: map<string, string> := map[
    "transport.closed" := "transport-failed",
    "transport.reset" := "transport-reset",
    "transport.timeout" := "transport-timeout",
    "transport.uncertain" := "transport-uncertain",
    "transport.unreachable" := "transport-unreachable"]

  const STATES: seq<GlobalState> := [
    Send("start", "client", "server", "prompt", "decide", FAILURE_EDGES),
    Choice("decide", "server", map["token" := "emit-token", "done" := "end"], FAILURE_EDGES),
    Send("emit-token", "server", "client", "token", "client-action", FAILURE_EDGES),
    Choice("client-action", "client", map["continue" := "decide", "cancel" := "cancel"], FAILURE_EDGES),
    GlobalState.Cancel("cancel", "client", "server", "generation", "end", FAILURE_EDGES),
    End("end"),
    Fail("transport-failed", "transport.closed"),
    Fail("transport-timeout", "transport.timeout"),
    Fail("transport-reset", "transport.reset"),
    Fail("transport-unreachable", "transport.unreachable"),
    Fail("transport-uncertain", "transport.uncertain")]

  const GENERATE := Conversation(
    "0.1.0", "example.generate", ["client", "server"],
    [TypeDefinition("prompt", true), TypeDefinition("token", true)],
    ["transport.closed", "transport.timeout", "transport.reset", "transport.unreachable", "transport.uncertain"],
    "start", STATES)

  const NAMES := Names("start", "decide", "emit-token", "client-action", "cancel", "end", "generation")

  lemma IdsDiffer()
    ensures UniqueStates(STATES)
  {
    assert "decide"[0] != "cancel"[0];
    forall i, j | 0 <= i < j < |STATES| ensures STATES[i].id != STATES[j].id {
      if i != 1 || j != 4 { assert |STATES[i].id| != |STATES[j].id|; }
    }
  }

  /** The index holds each listed state. */
  lemma Listed(i: nat)
    requires i < |STATES|
    ensures STATES[i].id in StateMap(STATES) && StateMap(STATES)[STATES[i].id] == STATES[i]
  {
    hide StateMap;
    IdsDiffer();
    StateMapUnique(STATES);
    assert STATES[i] in STATES;
  }

  const ROLES := NonEmptyIds(GENERATE.roles)
  const TYPES := NonEmptyIds(TypeIds(GENERATE.types))
  const FAILURES := NonEmptyIds(GENERATE.failures)

  lemma Declared()
    ensures "client" in ROLES && "server" in ROLES && "client" != "server"
    ensures "prompt" in TYPES && "token" in TYPES
    ensures forall f :: f in GENERATE.failures ==> f in FAILURES
  {
    var roles, types, failures := GENERATE.roles, TypeIds(GENERATE.types), GENERATE.failures;
    assert roles[0] == "client" && roles[1] == "server" && "client"[0] != "server"[0];
    assert types[0] == "prompt" && types[1] == "token";
    forall i | 0 <= i < 5 ensures failures[i] != "" { assert |failures[i]| > 0; }
  }

  lemma FailureTargets()
    ensures FAILURE_EDGES["transport.closed"] == "transport-failed"
    ensures FAILURE_EDGES["transport.reset"] == "transport-reset"
    ensures FAILURE_EDGES["transport.timeout"] == "transport-timeout"
    ensures FAILURE_EDGES["transport.uncertain"] == "transport-uncertain"
    ensures FAILURE_EDGES["transport.unreachable"] == "transport-unreachable"
  {
    assert |"transport.closed"| == 16 && |"transport.reset"| == 15 && |"transport.timeout"| == 17;
    assert |"transport.uncertain"| == 19 && |"transport.unreachable"| == 21;
  }

  /** Each failure edge leads to the terminal state of its failure. */
  lemma EdgesClean(f: string)
    requires f in FAILURE_EDGES
    ensures f in FAILURES && FAILURE_EDGES[f] in StateMap(STATES)
    ensures StateMap(STATES)[FAILURE_EDGES[f]] == Fail(FAILURE_EDGES[f], f)
  {
    hide StateMap;
    Declared();
    var failures := GENERATE.failures;
    assert failures[0] in failures && failures[1] in failures && failures[2] in failures && failures[3] in failures && failures[4] in failures;
    FailureTargets();
    if f == "transport.closed" { Listed(6); }
    else if f == "transport.timeout" { Listed(7); }
    else if f == "transport.reset" { Listed(8); }
    else if f == "transport.unreachable" { Listed(9); }
    else { Listed(10); }
  }

  lemma EdgesRaiseNothing(code: Code)
    ensures !FailureEdgeRaises(FAILURES, StateMap(STATES), FAILURE_EDGES, code)
  {
    hide StateMap, NonEmptyIds;
    forall f | f in FAILURE_EDGES
      ensures f in FAILURES && FAILURE_EDGES[f] in StateMap(STATES)
      ensures StateMap(STATES)[FAILURE_EDGES[f]].Fail? && StateMap(STATES)[FAILURE_EDGES[f]].failure == f
    {
      EdgesClean(f);
    }
  }

  lemma SendClean(i: nat, code: Code)
    requires i == 0 || i == 2
    ensures !StateRaises(ROLES, TYPES, FAILURES, StateMap(STATES), STATES[i], code)
  {
    hide StateMap, NonEmptyIds, FailureEdgeRaises;
    Declared();
    EdgesRaiseNothing(code);
    Listed(1);
    Listed(3);
  }

  lemma DecideClean(code: Code)
    ensures !StateRaises(ROLES, TYPES, FAILURES, StateMap(STATES), STATES[1], code)
  {
    hide StateMap, NonEmptyIds, FailureEdgeRaises, BranchesRaise;
    Declared();
    EdgesRaiseNothing(code);
    Listed(2);
    Listed(5);
    assert |"token"| == 5 && |"done"| == 4;
    BranchesClean(StateMap(STATES), STATES[1].branches, "token", "done", code);
  }

  lemma ActionClean(code: Code)
    ensures !StateRaises(ROLES, TYPES, FAILURES, StateMap(STATES), STATES[3], code)
  {
    hide StateMap, NonEmptyIds, FailureEdgeRaises, BranchesRaise;
    Declared();
    EdgesRaiseNothing(code);
    Listed(1);
    Listed(4);
    assert |"continue"| == 8 && |"cancel"| == 6;
    BranchesClean(StateMap(STATES), STATES[3].branches, "continue", "cancel", code);
  }

  lemma CancelClean(code: Code)
    ensures !StateRaises(ROLES, TYPES, FAILURES, StateMap(STATES), STATES[4], code)
  {
    hide StateMap, NonEmptyIds, FailureEdgeRaises;
    Declared();
    EdgesRaiseNothing(code);
    Listed(5);
    assert |"generation"| > 0;
  }

  lemma FailClean(i: nat, code: Code)
    requires 5 <= i < |STATES|
    ensures !StateRaises(ROLES, TYPES, FAILURES, StateMap(STATES), STATES[i], code)
  {
    hide StateMap, NonEmptyIds;
    Declared();
    var failures := GENERATE.failures;
    assert failures[0] in failures && failures[1] in failures && failures[2] in failures && failures[3] in failures && failures[4] in failures;
  }

  lemma IdsClean(code: Code)
    ensures !IdsRaise(GENERATE.roles, code) && !IdsRaise(TypeIds(GENERATE.types), code) && !IdsRaise(GENERATE.failures, code)
  {
    var roles, types, failures := GENERATE.roles, TypeIds(GENERATE.types), GENERATE.failures;
    assert "client"[0] != "server"[0] && |types[0]| != |types[1]|;
    forall i | 0 <= i < 5 ensures |failures[i]| > 0 {}
    forall i, j | 0 <= i < j < 5 ensures failures[i] != failures[j] { assert |failures[i]| != |failures[j]|; }
  }

  lemma NothingEarly(code: Code)
    ensures !EarlyRaised(GENERATE, code)
  {
    hide StateMap, NonEmptyIds, StateRaises;
    Listed(0);
    IdsDiffer();
    IdsClean(code);
    forall s | s in STATES ensures !StateRaises(ROLES, TYPES, FAILURES, StateMap(STATES), s, code) {
      var i :| 0 <= i < |STATES| && STATES[i] == s;
      if i == 0 || i == 2 { SendClean(i, code); }
      else if i == 1 { DecideClean(code); }
      else if i == 3 { ActionClean(code); }
      else if i == 4 { CancelClean(code); }
      else { FailClean(i, code); }
    }
  }

  lemma Edges()
    ensures "decide" in STATES[0].Successors()
    ensures "emit-token" in STATES[1].Successors() && "end" in STATES[1].Successors()
    ensures "client-action" in STATES[2].Successors() && "cancel" in STATES[3].Successors()
    ensures "transport-failed" in STATES[0].Successors() && "transport-timeout" in STATES[0].Successors()
    ensures "transport-reset" in STATES[0].Successors() && "transport-unreachable" in STATES[0].Successors()
    ensures "transport-uncertain" in STATES[0].Successors()
  {
    FailureTargets();
    assert |"token"| != |"done"| && |"continue"| != |"cancel"|;
    var decide, action := STATES[1].branches, STATES[3].branches;
    assert decide["token"] == "emit-token" && decide["done"] == "end" && action["cancel"] == "cancel";
  }

  lemma Reached(i: nat, id: string)
    requires i < |STATES| && id in STATES[i].Successors()
    requires Reachable(StateMap(STATES), "start", STATES[i].id)
    ensures Reachable(StateMap(STATES), "start", id)
  {
    hide StateMap, Reachable;
    Listed(i);
    ExtendPaths(StateMap(STATES), "start", STATES[i].id);
  }

  /** Every state is on a path from the start. */
  lemma AllReachable(i: nat)
    requires i < |STATES|
    ensures Reachable(StateMap(STATES), "start", STATES[i].id)
  {
    hide StateMap, Reachable, GlobalState.Successors;
    var m := StateMap(STATES);
    StartIsReachable(m, "start");
    Edges();
    Reached(0, "decide");
    Reached(1, "emit-token");
    Reached(1, "end");
    Reached(2, "client-action");
    Reached(3, "cancel");
    Reached(0, "transport-failed");
    Reached(0, "transport-timeout");
    Reached(0, "transport-reset");
    Reached(0, "transport-unreachable");
    Reached(0, "transport-uncertain");
  }

  /** The example passes the checker and has the shape the loops are written for. */
  lemma GenerateIsValid()
    ensures Valid(GENERATE) && Shaped(GENERATE, NAMES)
  {
    hide StateMap, Reachable, EarlyRaised;
    forall code ensures !Raised(GENERATE, code) {
      NothingEarly(code);
      forall s | s in STATES ensures Reachable(StateMap(STATES), "start", s.id) {
        var i :| 0 <= i < |STATES| && STATES[i] == s;
        AllReachable(i);
      }
      assert STATES[5] in STATES && STATES[5].Terminal();
    }
    ValidIsSound(GENERATE);
    Listed(0); Listed(1); Listed(2); Listed(3); Listed(4); Listed(5);
  }

  lemma EdgesOfState(m: map<string, GlobalState>, id: string)
    requires m == StateMap(STATES) && id in m && !m[id].Terminal()
    ensures m[id].onFailure == FAILURE_EDGES
  {
    hide StateMap;
    ghost var i := IndexOf(STATES, id);
    assert i < 5;
  }

  /** The failures that the example declares, at every state that is not terminal. */
  lemma DeclaredInExample(failure: string)
    ensures Declares(GENERATE, failure) <==> failure in FAILURE_EDGES
  {
    hide StateMap;
    assert !StateMap(STATES)["start"].Terminal() && StateMap(STATES)["start"].onFailure == FAILURE_EDGES by {
      Listed(0);
    }
    forall id | id in StateMap(STATES) && !StateMap(STATES)[id].Terminal()
      ensures StateMap(STATES)[id].onFailure == FAILURE_EDGES
    {
      EdgesOfState(StateMap(STATES), id);
    }
  }

  predicate OnlyDeclared(w: Weather) {
    FailureOf(w).Some? && FailureOf(w).value in FAILURE_EDGES
  }

  /**
   The loops of the example. Over a reliable channel every schedule of envelopes
   within the size limit is finite and ends with both full reports. With any injected
   failures and channel names that the example declares, every schedule is finite and
   ends with both reports, and at most one token is lost.
   */
  lemma ExampleRuns(p: Params, identity: string, planIdentity: string, fit: Fit, run: seq<Loops>, ticks: seq<Tick>)
    requires p.limit < GenerateLoops.U64_LIMIT && p.cancelAfter != Some(0)
    requires IsRun(p, run, ticks) && run[0] == Begin(GENERATE, p, identity, planIdentity)
    ensures FairRun(fit, p, run, ticks) && AllFit(fit, p, run) ==>
              && |ticks| <= 6 * p.limit + 6
              && ((forall tick :: !Enabled(fit, p, run[|ticks|], tick)) ==>
                    ReportsInFull(GENERATE, NAMES, p, identity, planIdentity, run, ticks))
    ensures (forall i :: 0 <= i < |ticks| && ticks[i].Next? ==> OnlyDeclared(ticks[i].weather)) ==>
              && |ticks| <= 6 * p.limit + 8
              && ((forall tick :: !TameEnabled(GENERATE, p, run[|ticks|], tick)) ==>
                    exists client, server ::
                      && BothReturn(GENERATE, p, identity, planIdentity, run, ticks, client, server)
                      && Explains(client) && Explains(server)
                      && client.tokens == GenerateRuns.CountTo(|client.tokens|)
                      && server.tokens == GenerateRuns.CountTo(|server.tokens|)
                      && |server.tokens| - 1 <= |client.tokens| <= |server.tokens| <= p.limit)
  {
    hide Begin, Shaped, Valid, Enabled, TickOf, TameEnabled, BothReturn, Explains, ReportsInFull, CallFits, Declares, GenerateRuns.CountTo;
    GenerateIsValid();
    if FairRun(fit, p, run, ticks) { GenerateClosedForm(GENERATE, NAMES, p, identity, planIdentity, fit, run, ticks); }
    if forall i :: 0 <= i < |ticks| && ticks[i].Next? ==> OnlyDeclared(ticks[i].weather) {
      forall i | 0 <= i < |ticks| ensures TameTick(GENERATE, ticks[i]) {
        if ticks[i].Next? { DeclaredInExample(FailureOf(ticks[i].weather).value); }
      }
      DeclaredInExample("transport.closed");
      FaultyRunsReport(GENERATE, NAMES, p, identity, planIdentity, run, ticks);
    }
  }

  /**
   A prompt of JSON null is accepted by the reference semantics, but no run records it
   identically on both sides: there is a run in which each side has recorded one frame,
   the client the prompt with its null and the server the prompt without a payload.
   */
  lemma NullPromptIsNotRealised(identity: string, planIdentity: string)
    ensures var sent := [Data("client", "server", "prompt", Some(Null))];
            && RunTrace(GENERATE, sent) == Some("decide") && !Realised(GENERATE, identity, planIdentity, sent)
            && exists acts, sys ::
                 && Agreement.Reached(GENERATE, identity, planIdentity, acts, sys)
                 && sys.left.session.trace == sent
                 && sys.right.session.trace == [Data("client", "server", "prompt", None)]
  {
    hide StateMap, Valid, Realised, After;
    GenerateIsValid();
    Listed(0);
    var frame := Data("client", "server", "prompt", Some(Null));
    RunExtend(GENERATE, [], frame);
    assert [] + [frame] == [frame];
    Realisability(GENERATE, identity, planIdentity, [frame]);
    assert CarriesNull([frame][0]);
    ScheduleDelivers(GENERATE, identity, planIdentity, [frame]);
    ClientServer.RolesDiffer();
    var acts := Schedule(GENERATE, [frame]);
    var sys := After(Start(GENERATE, identity, planIdentity), acts).value;
    assert Agreement.Reached(GENERATE, identity, planIdentity, acts, sys);
    assert CopyFor("client", [frame]) == [frame] && CopyFor("server", [frame]) == [Normal(frame)];
  }
}
