/**
 The global conversation graph and its declarative well-formedness.

 A conversation is a two-role graph of states. `Raised(c, code)` says, code by
 code, when the checker reports a diagnostic; a conversation is `Valid` when no
 code is raised. BTreeMaps are maps, so the order of the diagnostics inside one
 map is not modelled.
 */
module Conversations {
  import opened Basics

  const CONVERSATION_FORMAT := "0.1.0"

  datatype GlobalState =
    | Send(id: string, from: string, to: string, message: string, next: string, onFailure: map<string, string>)
    | Choice(id: string, chooser: string, branches: map<string, string>, onFailure: map<string, string>)
    | Cancel(id: string, from: string, to: string, scope: string, next: string, onFailure: map<string, string>)
    | End(id: string)
    | Fail(id: string, failure: string)
  {
    predicate Terminal() { End? || Fail? }

    /** Every edge of the state, failure edges included. */
    function Successors(): set<string> {
      match this
      case Send(_, _, _, _, next, onFailure) => {next} + onFailure.Values
      case Cancel(_, _, _, _, next, onFailure) => {next} + onFailure.Values
      case Choice(_, _, branches, onFailure) => branches.Values + onFailure.Values
      case End(_) => {}
      case Fail(_, _) => {}
    }

    function FailureTarget(failure: string): Option<string> {
      if !Terminal() && failure in onFailure then Some(onFailure[failure]) else None
    }
  }

  datatype TypeDefinition = TypeDefinition(id: string, hasKind: bool)

  datatype Conversation = Conversation(
    format: string,
    moduleId: string,
    roles: seq<string>,
    types: seq<TypeDefinition>,
    failures: seq<string>,
    initial: string,
    states: seq<GlobalState>)

  /** The diagnostic codes of the checker, by their published names. */
  datatype Code =
    | CLQ0001 | CLQ0002 | CLQ0003 | CLQ0004 | CLQ0005 | CLQ0006 | CLQ0007 | CLQ0008 | CLQ0009 | CLQ0010
    | CLQ0011 | CLQ0012 | CLQ0013 | CLQ0014 | CLQ0015 | CLQ0016 | CLQ0017 | CLQ0018 | CLQ0019 | CLQ0020

  // ----- Identifier sets and the state index

  function NonEmptyIds(ids: seq<string>): set<string> {
    set id | id in ids && id != ""
  }

  ghost predicate HasDuplicate(ids: seq<string>) {
    exists i, j :: 0 <= i < j < |ids| && ids[i] == ids[j] && ids[i] != ""
  }

  function TypeIds(types: seq<TypeDefinition>): (ids: seq<string>)
    ensures |ids| == |types|
  {
    seq(|types|, i requires 0 <= i < |types| => types[i].id)
  }

  /** The index by id; as with repeated BTreeMap insertion, a later state replaces an earlier one. */
  function StateMap(states: seq<GlobalState>): map<string, GlobalState> {
    if |states| == 0 then map[]
    else StateMap(states[..|states| - 1])[states[|states| - 1].id := states[|states| - 1]]
  }

  ghost predicate UniqueStates(states: seq<GlobalState>) {
    forall i, j :: 0 <= i < j < |states| ==> states[i].id != states[j].id
  }

  lemma {:induction false} StateMapKeys(states: seq<GlobalState>)
    ensures StateMap(states).Keys == set s | s in states :: s.id
    ensures forall id :: id in StateMap(states) ==> StateMap(states)[id] in states && StateMap(states)[id].id == id
  {
    if |states| == 0 {
    } else {
      var n := |states| - 1;
      StateMapKeys(states[..n]);
      assert states == states[..n] + [states[n]];
      assert forall s :: s in states <==> s in states[..n] || s == states[n];
    }
  }

  lemma IndexOf(states: seq<GlobalState>, id: string) returns (i: nat)
    requires id in StateMap(states)
    ensures i < |states| && states[i] == StateMap(states)[id] && states[i].id == id
  {
    StateMapKeys(states);
    i :| 0 <= i < |states| && states[i] == StateMap(states)[id];
  }

  lemma Indexed(states: seq<GlobalState>, i: nat)
    requires i < |states|
    ensures states[i].id in StateMap(states)
  {
    StateMapKeys(states);
    assert states[i] in states;
  }

  lemma {:induction false} StateMapUnique(states: seq<GlobalState>)
    requires UniqueStates(states)
    ensures forall s :: s in states ==> s.id in StateMap(states) && StateMap(states)[s.id] == s
  {
    StateMapKeys(states);
    forall s | s in states
      ensures s.id in StateMap(states) && StateMap(states)[s.id] == s
    {
      assert s.id in (set t | t in states :: t.id);
      var t := StateMap(states)[s.id];
      var i :| 0 <= i < |states| && states[i] == s;
      var j :| 0 <= j < |states| && states[j] == t;
      assert i == j;
    }
  }

  // ----- Reachability

  /** `p` follows edges of the graph from its first to its last id. */
  ghost predicate IsPath(m: map<string, GlobalState>, p: seq<string>) {
    && |p| > 0
    && forall i :: 0 <= i < |p| - 1 ==> p[i] in m && p[i + 1] in m[p[i]].Successors()
  }

  ghost predicate PathTo(m: map<string, GlobalState>, from: string, id: string, p: seq<string>) {
    IsPath(m, p) && p[0] == from && p[|p| - 1] == id
  }

  ghost predicate Reachable(m: map<string, GlobalState>, from: string, id: string) {
    exists p :: PathTo(m, from, id, p)
  }

  // ----- The diagnostics, one condition per code

  /** Codes raised by one failure edge. */
  predicate EdgeRaises(failures: set<string>, m: map<string, GlobalState>, failure: string, target: string, code: Code) {
    match code
    case CLQ0019 => failure !in failures
    case CLQ0016 => target !in m
    case CLQ0020 => target in m && !(m[target].Fail? && m[target].failure == failure)
    case _ => false
  }

  /** Codes raised by the failure edges of one state. */
  ghost predicate FailureEdgeRaises(failures: set<string>, m: map<string, GlobalState>,
                                    onFailure: map<string, string>, code: Code) {
    exists f :: f in onFailure && EdgeRaises(failures, m, f, onFailure[f], code)
  }

  ghost predicate RolesRaise(roles: set<string>, from: string, to: string, code: Code) {
    match code
    case CLQ0013 => from !in roles
    case CLQ0014 => to !in roles
    case CLQ0015 => from == to
    case _ => false
  }

  ghost predicate BranchesRaise(m: map<string, GlobalState>, branches: map<string, string>, code: Code) {
    match code
    case CLQ0009 => "" in branches
    case CLQ0016 => exists branch :: branch in branches && branches[branch] !in m
    case _ => false
  }

  /** Two labelled branches with existing targets raise nothing. */
  lemma BranchesClean(m: map<string, GlobalState>, branches: map<string, string>, a: string, b: string, code: Code)
    requires branches.Keys == {a, b} && a != "" && b != "" && a != b && branches[a] in m && branches[b] in m
    ensures !BranchesRaise(m, branches, code) && |branches| == 2
  {
    assert |branches| == |branches.Keys|;
  }

  /** Codes raised by one state, given the identifier sets collected before it. */
  ghost predicate StateRaises(roles: set<string>, types: set<string>, failures: set<string>,
                              m: map<string, GlobalState>, s: GlobalState, code: Code) {
    match s
    case Send(_, from, to, message, next, onFailure) =>
      || RolesRaise(roles, from, to, code)
      || (code == CLQ0006 && message !in types)
      || (code == CLQ0016 && next !in m)
      || FailureEdgeRaises(failures, m, onFailure, code)
    case Choice(_, chooser, branches, onFailure) =>
      || (code == CLQ0007 && chooser !in roles)
      || (code == CLQ0008 && |branches| < 2)
      || BranchesRaise(m, branches, code)
      || FailureEdgeRaises(failures, m, onFailure, code)
    case Cancel(_, from, to, scope, next, onFailure) =>
      || RolesRaise(roles, from, to, code)
      || (code == CLQ0010 && scope == "")
      || (code == CLQ0016 && next !in m)
      || FailureEdgeRaises(failures, m, onFailure, code)
    case Fail(_, failure) => code == CLQ0019 && failure !in failures
    case End(_) => false
  }

  /** What each id of a list raises: the empty id, or one listed before. */
  function IdDiagnostics(ids: seq<string>): seq<Code> {
    if |ids| == 0 then []
    else
      var n := |ids| - 1;
      IdDiagnostics(ids[..n]) +
      if ids[n] == "" then [CLQ0011] else if ids[n] in ids[..n] then [CLQ0012] else []
  }

  ghost predicate IdsRaise(ids: seq<string>, code: Code) {
    match code
    case CLQ0011 => "" in ids
    case CLQ0012 => HasDuplicate(ids)
    case _ => false
  }

  ghost predicate AnyStateRaises(c: Conversation, code: Code) {
    exists s :: s in c.states &&
                StateRaises(NonEmptyIds(c.roles), NonEmptyIds(TypeIds(c.types)), NonEmptyIds(c.failures),
                            StateMap(c.states), s, code)
  }

  /** The checks that run before the reachability search. */
  ghost predicate EarlyRaised(c: Conversation, code: Code) {
    || (code == CLQ0001 && c.format != CONVERSATION_FORMAT)
    || (code == CLQ0002 && |c.roles| != 2)
    || (code == CLQ0003 && exists t :: t in c.types && !t.hasKind)
    || (code == CLQ0004 && !UniqueStates(c.states))
    || (code == CLQ0005 && c.initial !in StateMap(c.states))
    || IdsRaise(c.roles, code) || IdsRaise(TypeIds(c.types), code) || IdsRaise(c.failures, code)
    || AnyStateRaises(c, code)
  }

  /** No early check fails, which is when the reachability search runs. */
  ghost predicate WellFormed(c: Conversation) {
    forall code :: !EarlyRaised(c, code)
  }

  ghost predicate ReachesTerminal(c: Conversation) {
    exists s :: s in c.states && s.Terminal() && Reachable(StateMap(c.states), c.initial, s.id)
  }

  ghost predicate LateRaised(c: Conversation, code: Code) {
    match code
    case CLQ0017 => exists s :: s in c.states && !Reachable(StateMap(c.states), c.initial, s.id)
    case CLQ0018 => !ReachesTerminal(c)
    case _ => false
  }

  /** Exactly the codes that `validate` reports. */
  ghost predicate Raised(c: Conversation, code: Code) {
    EarlyRaised(c, code) || (WellFormed(c) && LateRaised(c, code))
  }

  ghost predicate Valid(c: Conversation) {
    forall code :: !Raised(c, code)
  }

  // ----- What validity gives

  ghost predicate EdgesOk(m: map<string, GlobalState>, onFailure: map<string, string>) {
    forall f :: f in onFailure ==>
                  onFailure[f] in m && m[onFailure[f]].Fail? && m[onFailure[f]].failure == f
  }

  ghost predicate StateOk(c: Conversation, m: map<string, GlobalState>, s: GlobalState) {
    match s
    case Send(_, from, to, _, next, onFailure) =>
      from in c.roles && to in c.roles && from != to && next in m && EdgesOk(m, onFailure)
    case Cancel(_, from, to, _, next, onFailure) =>
      from in c.roles && to in c.roles && from != to && next in m && EdgesOk(m, onFailure)
    case Choice(_, chooser, branches, onFailure) =>
      && chooser in c.roles && |branches| >= 2
      && (forall branch :: branch in branches ==> branches[branch] in m)
      && EdgesOk(m, onFailure)
    case End(_) => true
    case Fail(_, _) => true
  }

  ghost predicate IndexedOk(c: Conversation, id: string) {
    var m := StateMap(c.states);
    id in m ==> m[id].id == id && StateOk(c, m, m[id])
  }

  /** The structural facts that execution relies on. */
  ghost predicate Sound(c: Conversation) {
    && |c.roles| == 2 && c.roles[0] != c.roles[1]
    && UniqueStates(c.states)
    && c.initial in StateMap(c.states)
    && forall id :: IndexedOk(c, id)
  }

  lemma NotRaised(c: Conversation, s: GlobalState, code: Code)
    requires WellFormed(c) && s in c.states
    ensures !StateRaises(NonEmptyIds(c.roles), NonEmptyIds(TypeIds(c.types)), NonEmptyIds(c.failures),
                         StateMap(c.states), s, code)
  {
    hide StateMap, StateRaises;
    assert !EarlyRaised(c, code);
  }

  lemma WellFormedState(c: Conversation, s: GlobalState)
    requires WellFormed(c) && s in c.states
    ensures StateOk(c, StateMap(c.states), s)
  {
    hide StateMap, WellFormed;
    NotRaised(c, s, CLQ0016);
    NotRaised(c, s, CLQ0020);
    if s.Choice? {
      NotRaised(c, s, CLQ0007);
      NotRaised(c, s, CLQ0008);
    } else {
      NotRaised(c, s, CLQ0013);
      NotRaised(c, s, CLQ0014);
      NotRaised(c, s, CLQ0015);
    }
  }

  lemma WellFormedIsSound(c: Conversation)
    requires WellFormed(c)
    ensures Sound(c)
  {
    var m := StateMap(c.states);
    assert !EarlyRaised(c, CLQ0002) && !EarlyRaised(c, CLQ0004) && !EarlyRaised(c, CLQ0005);
    assert !EarlyRaised(c, CLQ0011) && !EarlyRaised(c, CLQ0012);
    assert c.roles[0] != "";
    StateMapKeys(c.states);
    forall id ensures IndexedOk(c, id) {
      if id in m { WellFormedState(c, m[id]); }
    }
  }

  lemma ValidIsSound(c: Conversation)
    requires Valid(c)
    ensures Sound(c)
  {
    forall code ensures !EarlyRaised(c, code) { assert !Raised(c, code); }
    WellFormedIsSound(c);
  }
}
