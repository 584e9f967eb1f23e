/** A valid conversation whose send leads back to itself, where a refused send is counted twice. */
module SelfLoop {
  import opened Basics
  import opened Conversations
  import opened Traces
  import opened Projection
  import opened Machines
  import opened Sessions
  import Validation

  const STATES: seq<GlobalState> := [
    GlobalState.Send("ping", "a", "bb", "tick", "ping", map["closed" := "failed"]),
    GlobalState.Fail("failed", "closed")]

  const PINGS := Conversation("0.1.0", "pings", ["a", "bb"], [TypeDefinition("tick", true)], ["closed"], "ping", STATES)

  lemma Listed()
    ensures UniqueStates(STATES)
    ensures StateMap(STATES) == map["ping" := STATES[0], "failed" := STATES[1]] && "ping" != "failed"
  {
    assert |"ping"| != |"failed"|;
    assert STATES[..1] == [STATES[0]] && [STATES[0]][..0] == [];
    assert StateMap([]) == map[];
    assert StateMap([STATES[0]]) == map["ping" := STATES[0]];
  }

  lemma Declared()
    ensures "a" in NonEmptyIds(PINGS.roles) && "bb" in NonEmptyIds(PINGS.roles) && "a" != "bb"
    ensures "tick" in NonEmptyIds(TypeIds(PINGS.types)) && "closed" in NonEmptyIds(PINGS.failures)
  {
    assert PINGS.roles[0] == "a" && PINGS.roles[1] == "bb" && |"a"| != |"bb"|;
    assert TypeIds(PINGS.types)[0] == "tick" && PINGS.failures[0] == "closed" && |"tick"| > 0 && |"closed"| > 0;
  }

  lemma StateClean(i: nat, code: Code)
    requires i < |STATES|
    ensures !StateRaises(NonEmptyIds(PINGS.roles), NonEmptyIds(TypeIds(PINGS.types)), NonEmptyIds(PINGS.failures),
                         StateMap(STATES), STATES[i], code)
  {
    Listed();
    Declared();
    hide StateMap, NonEmptyIds;
    assert map["closed" := "failed"]["closed"] == "failed";
  }

  lemma NothingEarly(code: Code)
    ensures !EarlyRaised(PINGS, code)
  {
    Listed();
    hide StateMap, NonEmptyIds, StateRaises;
    assert |PINGS.roles[0]| != |PINGS.roles[1]| && |TypeIds(PINGS.types)[0]| == 4 && |PINGS.failures[0]| == 6;
    forall s | s in STATES
      ensures !StateRaises(NonEmptyIds(PINGS.roles), NonEmptyIds(TypeIds(PINGS.types)), NonEmptyIds(PINGS.failures),
                           StateMap(STATES), s, code)
    {
      var i :| 0 <= i < |STATES| && STATES[i] == s;
      StateClean(i, code);
    }
  }

  lemma AllReachable()
    ensures Reachable(StateMap(STATES), "ping", "ping") && Reachable(StateMap(STATES), "ping", "failed")
  {
    Listed();
    hide StateMap, Reachable;
    Validation.StartIsReachable(StateMap(STATES), "ping");
    assert map["closed" := "failed"]["closed"] == "failed";
    assert "failed" in STATES[0].Successors();
    Validation.ExtendPaths(StateMap(STATES), "ping", "ping");
  }

  lemma PingsIsValid()
    ensures Valid(PINGS)
  {
    hide StateMap, EarlyRaised, Reachable;
    forall code ensures !Raised(PINGS, code) {
      NothingEarly(code);
      AllReachable();
      assert STATES[1] in STATES && STATES[1].Terminal();
    }
  }

  /** One refused send: one frame is recorded and the counter shows two. */
  lemma RefusedPingCountsTwice(identity: string, planIdentity: string, payload: Json)
    ensures Valid(PINGS)
    ensures var events := [Sending(SendData(payload), Some(InjectedFailure("a", "send", 1, "closed")))];
            var end := RunEvents(Initial(PINGS, "a", identity, planIdentity), events);
            end.Ok? && |end.value.trace| == 1 && end.value.machine.sequence == 2
  {
    hide Valid;
    PingsIsValid();
    ValidIsSound(PINGS);
    Listed();
    var start := Initial(PINGS, "a", identity, planIdentity);
    var event := Sending(SendData(payload), Some(InjectedFailure("a", "send", 1, "closed")));
    assert PINGS.roles[0] == "a";
    LocalIsProjected(PINGS, "a", start.machine);
    assert [event][..0] == [];
    assert RunEvents(start, []) == Ok(start);
    assert map["closed" := "failed"]["closed"] == "failed";
    assert Perform(start, event).Ok?;
    SequenceCountsFrames(PINGS, "a", identity, planIdentity, [event]);
    SessionStaysConsistent(PINGS, "a", identity, planIdentity, [event]);
  }
}
