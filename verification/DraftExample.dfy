/** The draft-sync conversation. */
module DraftExample {
  import opened Basics
  import opened Conversations
  import opened Validation
  import opened Traces
  import Projection
  import opened Machines
  import opened Sessions
  import opened Systems
  import opened ClientServer
  import opened DraftRuns
  import Agreement
  import Realisation

  const STATES: seq<GlobalState> := [
    Choice("client-turn", "client", map["message" := "client-send", "done" := "end"], map[]),
    Send("client-send", "client", "server", "sync", "server-turn", map[]),
    Choice("server-turn", "server", map["message" := "server-send", "idle" := "client-turn"], map[]),
    Send("server-send", "server", "client", "sync", "client-turn", map[]),
    End("end")]

  const DRAFT_SYNC := Conversation("0.1.0", "colloq.draft-sync", ["client", "server"], [TypeDefinition("sync", true)], [],
                                   "client-turn", STATES)

  const NAMES := Names("client-turn", "client-send", "server-turn", "server-send", "end")

  const ROLES := NonEmptyIds(DRAFT_SYNC.roles)
  const TYPES := NonEmptyIds(TypeIds(DRAFT_SYNC.types))
  const FAILURES := NonEmptyIds(DRAFT_SYNC.failures)

  lemma IdsDiffer()
    ensures UniqueStates(STATES)
  {
    assert "client-turn"[0] != "server-turn"[0] && "client-turn"[0] != "server-send"[0];
    assert "client-turn"[7] != "client-send"[7] && "server-turn"[7] != "server-send"[7];
    assert "client-send"[0] != "server-turn"[0] && "client-send"[0] != "server-send"[0];
    forall i, j | 0 <= i < j < |STATES| ensures STATES[i].id != STATES[j].id {
      if j == 4 { assert |STATES[i].id| == 11 && |STATES[j].id| == 3; }
    }
  }

  lemma Listed(i: nat)
    requires i < |STATES|
    ensures STATES[i].id in StateMap(STATES) && StateMap(STATES)[STATES[i].id] == STATES[i]
  {
    hide StateMap;
    IdsDiffer();
    StateMapUnique(STATES);
    assert STATES[i] in STATES;
  }

  lemma Declared()
    ensures "client" in ROLES && "server" in ROLES && "client" != "server" && "sync" in TYPES
  {
    var roles, types := DRAFT_SYNC.roles, TypeIds(DRAFT_SYNC.types);
    assert roles[0] == "client" && roles[1] == "server" && "client"[0] != "server"[0] && types[0] == "sync";
  }

  lemma StateClean(i: nat, code: Code)
    requires i < |STATES|
    ensures !StateRaises(ROLES, TYPES, FAILURES, StateMap(STATES), STATES[i], code)
  {
    hide StateMap, NonEmptyIds, BranchesRaise;
    Declared();
    Listed(0); Listed(1); Listed(2); Listed(3); Listed(4);
    assert |"message"| == 7 && |"done"| == 4 && |"idle"| == 4;
    if i == 0 { BranchesClean(StateMap(STATES), STATES[0].branches, "message", "done", code); }
    if i == 2 { BranchesClean(StateMap(STATES), STATES[2].branches, "message", "idle", code); }
  }

  lemma NothingEarly(code: Code)
    ensures !EarlyRaised(DRAFT_SYNC, code)
  {
    hide StateMap, NonEmptyIds, StateRaises;
    Listed(0);
    IdsDiffer();
    assert "client"[0] != "server"[0] && |TypeIds(DRAFT_SYNC.types)[0]| == 4;
    forall s | s in STATES ensures !StateRaises(ROLES, TYPES, FAILURES, StateMap(STATES), s, code) {
      var i :| 0 <= i < |STATES| && STATES[i] == s;
      StateClean(i, code);
    }
  }

  lemma Edges()
    ensures "client-send" in STATES[0].Successors() && "end" in STATES[0].Successors()
    ensures "server-turn" in STATES[1].Successors() && "server-send" in STATES[2].Successors()
  {
    assert |"message"| != |"done"| && |"message"| != |"idle"|;
    var mine, theirs := STATES[0].branches, STATES[2].branches;
    assert mine["message"] == "client-send" && mine["done"] == "end" && theirs["message"] == "server-send";
  }

  lemma Reached(i: nat, id: string)
    requires i < |STATES| && id in STATES[i].Successors() && Reachable(StateMap(STATES), "client-turn", STATES[i].id)
    ensures Reachable(StateMap(STATES), "client-turn", id)
  {
    hide StateMap, Reachable;
    Listed(i);
    ExtendPaths(StateMap(STATES), "client-turn", STATES[i].id);
  }

  lemma AllReachable(i: nat)
    requires i < |STATES|
    ensures Reachable(StateMap(STATES), "client-turn", STATES[i].id)
  {
    hide StateMap, Reachable, GlobalState.Successors;
    StartIsReachable(StateMap(STATES), "client-turn");
    Edges();
    Reached(0, "client-send");
    Reached(0, "end");
    Reached(1, "server-turn");
    Reached(2, "server-send");
  }

  /** The draft-sync conversation passes the checker and has the shape its loops are written for. */
  lemma DraftSyncIsValid()
    ensures Valid(DRAFT_SYNC) && Shaped(DRAFT_SYNC, NAMES)
  {
    hide StateMap, Reachable, EarlyRaised;
    forall code ensures !Raised(DRAFT_SYNC, code) {
      NothingEarly(code);
      forall s | s in STATES ensures Reachable(StateMap(STATES), "client-turn", s.id) {
        var i :| 0 <= i < |STATES| && STATES[i] == s;
        AllReachable(i);
      }
      assert STATES[4] in STATES && STATES[4].Terminal();
    }
    ValidIsSound(DRAFT_SYNC);
    Listed(0); Listed(1); Listed(2); Listed(3); Listed(4);
  }

  // ----- A refused send without a declared failure

  const MESSAGE := Choose("message")

  /** The client's choice moves its machine to the sending state. */
  lemma ClientChooses(m: Machine)
    requires Runs(DRAFT_SYNC, "client", m) && m.current == "client-turn"
    ensures m.Ready() && Emit(m, MESSAGE).Ok?
    ensures Emit(m, MESSAGE).value.machine == Moved(m, "client-send")
    ensures forall trace, error :: RecordFault(Moved(m, "client-send"), "client-turn", trace, error).Err?
  {
    hide StateMap, Projection.Find, Projection.Closed;
    DraftSyncIsValid();
    Listed(0);
    LocalIsProjected(DRAFT_SYNC, "client", m);
    assert |"message"| != |"done"|;
  }

  /** The server is gone before the client chooses. */
  const GONE: seq<Act> := [Drop(Right), Do(Left, Emits(MESSAGE), Clear(None))]

  /**
   A call that returns an error may leave its machine one step past its trace. The
   conversation declares no failure, so the client's choice towards a closed channel
   is an error: its trace is empty, but its machine has moved on and counted, and the
   two machines differ although nothing is in flight and no fault was recorded.
   */
  lemma RefusedChoiceOverruns(identity: string, planIdentity: string)
    ensures exists sys ::
              && Agreement.Reached(DRAFT_SYNC, identity, planIdentity, GONE, sys)
              && sys.toLeft == [] && sys.toRight == [] && !sys.left.live
              && sys.left.session.trace == [] && sys.right.session.trace == []
              && sys.left.session.machine.current == "client-send" && sys.left.session.machine.sequence == 1
              && sys.right.session.machine.current == "client-turn" && sys.right.session.machine.sequence == 0
  {
    hide StateMap, Projection.Find, Projection.Closed, Projection.Project;
    DraftSyncIsValid();
    Declared();
    Listed(0);
    var start := Start(DRAFT_SYNC, identity, planIdentity);
    var alone := start.With(Right, start.right.(open := false));
    Realisation.AfterTwo(start, [], GONE[0], GONE[1]);
    assert [] + [GONE[0], GONE[1]] == GONE;
    DropStep(start, Right);
    var m := start.left.session.machine;
    ClientChooses(m);
    var sys := alone.With(Left, Peer(Session(Moved(m, "client-send"), []), false, false));
    assert Step(alone, GONE[1]) == Some(sys);
    assert Agreement.Reached(DRAFT_SYNC, identity, planIdentity, GONE, sys);
  }
}
