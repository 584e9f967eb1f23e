/** Endpoint projection: the compiler from the global graph to one local machine per role. */
module Projection {
  import opened Basics
  import opened Conversations

  const ENDPOINT_FORMAT := "0.1.0"

  datatype EndpointState =
    | Send(id: string, to: string, message: string, next: string, onFailure: map<string, string>)
    | Receive(id: string, from: string, message: string, next: string, onFailure: map<string, string>)
    | Select(id: string, branches: map<string, string>, onFailure: map<string, string>)
    | Branch(id: string, from: string, branches: map<string, string>, onFailure: map<string, string>)
    | SendCancel(id: string, to: string, scope: string, next: string, onFailure: map<string, string>)
    | ReceiveCancel(id: string, from: string, scope: string, next: string, onFailure: map<string, string>)
    | End(id: string)
    | Fail(id: string, failure: string)
  {
    predicate Terminal() { End? || Fail? }

    function FailureTarget(failure: string): Option<string> {
      if !Terminal() && failure in onFailure then Some(onFailure[failure]) else None
    }

    /** `endpoint_successors` */
    function Successors(): set<string> {
      match this
      case Send(_, _, _, next, onFailure) => {next} + onFailure.Values
      case Receive(_, _, _, next, onFailure) => {next} + onFailure.Values
      case SendCancel(_, _, _, next, onFailure) => {next} + onFailure.Values
      case ReceiveCancel(_, _, _, next, onFailure) => {next} + onFailure.Values
      case Select(_, branches, onFailure) => branches.Values + onFailure.Values
      case Branch(_, _, branches, onFailure) => branches.Values + onFailure.Values
      case End(_) => {}
      case Fail(_, _) => {}
    }
  }

  datatype Endpoint = Endpoint(format: string, conversation: string, role: string, initial: string,
                               states: seq<EndpointState>)

  function ProjectState(s: GlobalState, role: string): (e: EndpointState)
    ensures e.id == s.id
  {
    match s
    case Send(id, from, to, message, next, onFailure) =>
      if from == role then EndpointState.Send(id, to, message, next, onFailure)
      else EndpointState.Receive(id, from, message, next, onFailure)
    case Choice(id, chooser, branches, onFailure) =>
      if chooser == role then EndpointState.Select(id, branches, onFailure)
      else EndpointState.Branch(id, chooser, branches, onFailure)
    case Cancel(id, from, to, scope, next, onFailure) =>
      if from == role then EndpointState.SendCancel(id, to, scope, next, onFailure)
      else EndpointState.ReceiveCancel(id, from, scope, next, onFailure)
    case End(id) => EndpointState.End(id)
    case Fail(id, failure) => EndpointState.Fail(id, failure)
  }

  function ProjectStates(states: seq<GlobalState>, role: string): (r: seq<EndpointState>)
    ensures |r| == |states|
    ensures forall i :: 0 <= i < |states| ==> r[i] == ProjectState(states[i], role)
  {
    seq(|states|, i requires 0 <= i < |states| => ProjectState(states[i], role))
  }

  function Project(c: Conversation, role: string): Endpoint {
    Endpoint(ENDPOINT_FORMAT, c.moduleId, role, c.initial, ProjectStates(c.states, role))
  }

  /** `project_validated`: one endpoint per role, in the order of the roles. */
  method ProjectValidated(c: Conversation) returns (endpoints: seq<Endpoint>)
    ensures |endpoints| == |c.roles|
    ensures forall i :: 0 <= i < |c.roles| ==> endpoints[i] == Project(c, c.roles[i])
  {
    endpoints := [];
    for i := 0 to |c.roles|
      invariant |endpoints| == i
      invariant forall j :: 0 <= j < i ==> endpoints[j] == Project(c, c.roles[j])
    {
      endpoints := endpoints + [Project(c, c.roles[i])];
    }
  }

  /** The first state with the given id, as `iter().find` returns it. */
  function Find(states: seq<EndpointState>, id: string): Option<EndpointState> {
    if |states| == 0 then None
    else if states[0].id == id then Some(states[0])
    else Find(states[1..], id)
  }

  lemma {:induction false} FindFinds(states: seq<EndpointState>, id: string)
    ensures match Find(states, id)
            case Some(s) => s in states && s.id == id
            case None => forall i :: 0 <= i < |states| ==> states[i].id != id
  {
    if |states| == 0 {
    } else {
      FindFinds(states[1..], id);
      assert forall i :: 1 <= i < |states| ==> states[i] == states[1..][i - 1];
    }
  }

  lemma {:induction false} FindAt(states: seq<EndpointState>, i: nat)
    requires i < |states| && forall j :: 0 <= j < i ==> states[j].id != states[i].id
    ensures Find(states, states[i].id) == Some(states[i])
  {
    if i == 0 {
    } else {
      assert states[0].id != states[i].id;
      FindAt(states[1..], i - 1);
    }
  }

  /** Looking a state up in a projection is projecting the state the global index holds. */
  lemma FindProjected(c: Conversation, role: string, id: string)
    requires Sound(c)
    ensures Find(Project(c, role).states, id) ==
            if id in StateMap(c.states) then Some(ProjectState(StateMap(c.states)[id], role)) else None
  {
    var local := ProjectStates(c.states, role);
    if id in StateMap(c.states) {
      var i := IndexOf(c.states, id);
      forall j | 0 <= j < i ensures local[j].id != local[i].id {
        assert c.states[j].id != c.states[i].id;
      }
      FindAt(local, i);
    } else {
      forall j | 0 <= j < |c.states| ensures local[j].id != id {
        Indexed(c.states, j);
      }
      FindFinds(local, id);
    }
  }

  /** Every edge and the initial state lead to a state of the endpoint. */
  ghost predicate Closed(e: Endpoint) {
    && Find(e.states, e.initial).Some?
    && forall s, t :: s in e.states && t in s.Successors() ==> Find(e.states, t).Some?
  }

  lemma ProjectedSuccessors(c: Conversation, i: nat, role: string)
    requires Sound(c) && i < |c.states|
    ensures ProjectState(c.states[i], role).Successors() == c.states[i].Successors() <= StateMap(c.states).Keys
  {
    StateMapUnique(c.states);
    assert c.states[i] in c.states;
    assert IndexedOk(c, c.states[i].id);
  }

  lemma ProjectionIsClosed(c: Conversation, role: string)
    requires Sound(c)
    ensures Closed(Project(c, role))
  {
    var e := Project(c, role);
    FindProjected(c, role, c.initial);
    forall s, t | s in e.states && t in s.Successors() ensures Find(e.states, t).Some? {
      var i :| 0 <= i < |e.states| && s == e.states[i];
      ProjectedSuccessors(c, i, role);
      FindProjected(c, role, t);
    }
  }
}
