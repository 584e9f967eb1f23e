/** The checker: `validate`, its helpers and the worklist reachability search. */
module Validation {
  import opened Basics
  import opened Conversations
  import Acceptance

  lemma DuplicateStep(ids: seq<string>, i: nat)
    requires i < |ids|
    ensures HasDuplicate(ids[..i + 1]) <==> HasDuplicate(ids[..i]) || ids[i] in NonEmptyIds(ids[..i])
  {
    var before, after := ids[..i], ids[..i + 1];
    if HasDuplicate(before) {
      var a, b :| 0 <= a < b < |before| && before[a] == before[b] && before[a] != "";
      assert after[a] == after[b];
    }
    if ids[i] in NonEmptyIds(before) {
      var a :| 0 <= a < |before| && before[a] == ids[i];
      assert after[a] == after[i];
    }
    if HasDuplicate(after) {
      var a, b :| 0 <= a < b < |after| && after[a] == after[b] && after[a] != "";
      assert before[a] == after[a];
      if b < i { assert before[b] == after[b]; }
    }
  }

  lemma {:induction false} IdDiagnosticsRaise(ids: seq<string>)
    ensures forall k :: k in IdDiagnostics(ids) <==> IdsRaise(ids, k)
  {
    if |ids| == 0 {
    } else {
      var n := |ids| - 1;
      IdDiagnosticsRaise(ids[..n]);
      DuplicateStep(ids, n);
      assert ids[..n + 1] == ids && ids == ids[..n] + [ids[n]];
    }
  }

  /** One diagnostic for every id that is empty or repeated, in order. */
  method UniqueIds(ids: seq<string>, diagnostics: seq<Code>) returns (seen: set<string>, out: seq<Code>)
    ensures seen == NonEmptyIds(ids)
    ensures out == diagnostics + IdDiagnostics(ids)
    ensures forall k :: k in out <==> k in diagnostics || IdsRaise(ids, k)
  {
    seen, out := {}, diagnostics;
    for i := 0 to |ids|
      invariant seen == NonEmptyIds(ids[..i])
      invariant out == diagnostics + IdDiagnostics(ids[..i])
    {
      assert ids[..i + 1][..i] == ids[..i];
      if ids[i] == "" {
        out := out + [CLQ0011];
      } else if ids[i] in seen {
        out := out + [CLQ0012];
      } else {
        seen := seen + {ids[i]};
      }
    }
    assert ids[..|ids|] == ids;
    IdDiagnosticsRaise(ids);
  }

  method ValidateRoles(from: string, to: string, roles: set<string>, diagnostics: seq<Code>) returns (out: seq<Code>)
    ensures forall k :: k in out <==> k in diagnostics || RolesRaise(roles, from, to, k)
  {
    out := diagnostics;
    if from !in roles { out := out + [CLQ0013]; }
    if to !in roles { out := out + [CLQ0014]; }
    if from == to { out := out + [CLQ0015]; }
  }

  method ValidateTarget(target: string, states: map<string, GlobalState>, diagnostics: seq<Code>)
    returns (out: seq<Code>)
    ensures forall k :: k in out <==> k in diagnostics || (k == CLQ0016 && target !in states)
  {
    out := if target !in states then diagnostics + [CLQ0016] else diagnostics;
  }

  /** The part of a map whose keys have been visited. */
  ghost function Visited(m: map<string, string>, todo: set<string>): map<string, string> {
    map k | k in m && k !in todo :: m[k]
  }

  lemma FailureEdgeStep(failures: set<string>, m: map<string, GlobalState>, onFailure: map<string, string>,
                        todo: set<string>, f: string)
    requires todo <= onFailure.Keys && f in todo
    ensures forall k ::
              FailureEdgeRaises(failures, m, Visited(onFailure, todo - {f}), k) <==>
              FailureEdgeRaises(failures, m, Visited(onFailure, todo), k) || EdgeRaises(failures, m, f, onFailure[f], k)
  {
    hide EdgeRaises;
    var v, w := Visited(onFailure, todo), Visited(onFailure, todo - {f});
    assert forall g :: g in w <==> g in v || g == f;
    assert forall g :: g in v ==> w[g] == v[g];
    assert w[f] == onFailure[f];
  }

  lemma NothingVisited(failures: set<string>, m: map<string, GlobalState>, onFailure: map<string, string>)
    ensures forall k :: !FailureEdgeRaises(failures, m, Visited(onFailure, onFailure.Keys), k)
  {
  }

  /** The checks of one failure edge, with the codes it raises. */
  method ValidateFailureEdge(failure: string, target: string, failures: set<string>,
                             states: map<string, GlobalState>, diagnostics: seq<Code>)
    returns (out: seq<Code>, raised: set<Code>)
    ensures forall k :: k in raised <==> EdgeRaises(failures, states, failure, target, k)
    ensures forall k :: k in out <==> k in diagnostics || k in raised
  {
    out, raised := diagnostics, {};
    if failure !in failures {
      out, raised := out + [CLQ0019], {CLQ0019};
    }
    out := ValidateTarget(target, states, out);
    if target !in states {
      raised := raised + {CLQ0016};
    } else if !(states[target].Fail? && states[target].failure == failure) {
      out, raised := out + [CLQ0020], raised + {CLQ0020};
    }
  }

  /** Besides the codes, `flagged` says which edge raises which. */
  method ValidateFailureEdges(onFailure: map<string, string>, failures: set<string>,
                              states: map<string, GlobalState>, diagnostics: seq<Code>)
    returns (out: seq<Code>, flagged: set<(string, Code)>)
    ensures forall k :: k in out <==> k in diagnostics || FailureEdgeRaises(failures, states, onFailure, k)
    ensures forall f, k :: (f, k) in flagged <==> f in onFailure && EdgeRaises(failures, states, f, onFailure[f], k)
  {
    hide FailureEdgeRaises, EdgeRaises;
    out, flagged := diagnostics, {};
    var todo := onFailure.Keys;
    NothingVisited(failures, states, onFailure);
    while todo != {}
      invariant todo <= onFailure.Keys
      invariant forall k :: k in out <==>
                  k in diagnostics || FailureEdgeRaises(failures, states, Visited(onFailure, todo), k)
      invariant forall f, k :: (f, k) in flagged <==>
                  f in onFailure && f !in todo && EdgeRaises(failures, states, f, onFailure[f], k)
      decreases |todo|
    {
      var failure :| failure in todo;
      FailureEdgeStep(failures, states, onFailure, todo, failure);
      var raised;
      out, raised := ValidateFailureEdge(failure, onFailure[failure], failures, states, out);
      flagged := flagged + set k | k in raised :: (failure, k);
      todo := todo - {failure};
    }
    assert Visited(onFailure, {}) == onFailure;
  }

  lemma BranchStep(m: map<string, GlobalState>, branches: map<string, string>, todo: set<string>, branch: string)
    requires todo <= branches.Keys && branch in todo
    ensures forall k ::
              BranchesRaise(m, Visited(branches, todo - {branch}), k) <==>
              || BranchesRaise(m, Visited(branches, todo), k)
              || (k == CLQ0009 && branch == "")
              || (k == CLQ0016 && branches[branch] !in m)
  {
    var v, w := Visited(branches, todo), Visited(branches, todo - {branch});
    assert w == v[branch := branches[branch]];
    assert BranchesRaise(m, w, CLQ0009) <==> BranchesRaise(m, v, CLQ0009) || branch == "";
    assert BranchesRaise(m, w, CLQ0016) <==> BranchesRaise(m, v, CLQ0016) || branches[branch] !in m by {
      assert forall g :: g in w <==> g in v || g == branch;
      assert forall g :: g in v ==> w[g] == v[g];
      assert w[branch] == branches[branch];
    }
  }

  method ValidateBranches(branches: map<string, string>, states: map<string, GlobalState>, diagnostics: seq<Code>)
    returns (out: seq<Code>)
    ensures forall k :: k in out <==> k in diagnostics || BranchesRaise(states, branches, k)
  {
    out := diagnostics;
    var todo := branches.Keys;
    while todo != {}
      invariant todo <= branches.Keys
      invariant forall k :: k in out <==> k in diagnostics || BranchesRaise(states, Visited(branches, todo), k)
      decreases |todo|
    {
      var branch :| branch in todo;
      BranchStep(states, branches, todo, branch);
      if branch == "" {
        out := out + [CLQ0009];
      }
      out := ValidateTarget(branches[branch], states, out);
      todo := todo - {branch};
    }
    assert Visited(branches, {}) == branches;
  }

  method ValidateState(roles: set<string>, types: set<string>, failures: set<string>,
                       states: map<string, GlobalState>, s: GlobalState, diagnostics: seq<Code>)
    returns (out: seq<Code>)
    ensures forall k :: k in out <==> k in diagnostics || StateRaises(roles, types, failures, states, s, k)
  {
    out := diagnostics;
    var flagged;
    match s {
      case Send(_, from, to, message, next, onFailure) =>
        out := ValidateRoles(from, to, roles, out);
        if message !in types { out := out + [CLQ0006]; }
        out := ValidateTarget(next, states, out);
        out, flagged := ValidateFailureEdges(onFailure, failures, states, out);
      case Choice(_, chooser, branches, onFailure) =>
        if chooser !in roles { out := out + [CLQ0007]; }
        if |branches| < 2 { out := out + [CLQ0008]; }
        out := ValidateBranches(branches, states, out);
        out, flagged := ValidateFailureEdges(onFailure, failures, states, out);
      case Cancel(_, from, to, scope, next, onFailure) =>
        out := ValidateRoles(from, to, roles, out);
        if scope == "" { out := out + [CLQ0010]; }
        out := ValidateTarget(next, states, out);
        out, flagged := ValidateFailureEdges(onFailure, failures, states, out);
      case Fail(_, failure) =>
        if failure !in failures { out := out + [CLQ0019]; }
      case End(_) =>
    }
  }

  lemma UniqueStep(states: seq<GlobalState>, i: nat)
    requires i < |states|
    ensures UniqueStates(states[..i + 1]) <==> UniqueStates(states[..i]) && states[i].id !in StateMap(states[..i])
    ensures StateMap(states[..i + 1]) == StateMap(states[..i])[states[i].id := states[i]]
  {
    var before, after := states[..i], states[..i + 1];
    assert after[..i] == before && after == before + [states[i]];
    if states[i].id in StateMap(before) {
      var j := IndexOf(before, states[i].id);
      assert after[j].id == after[i].id;
    } else {
      forall j | 0 <= j < i ensures before[j].id != states[i].id { Indexed(before, j); }
    }
    if UniqueStates(after) {
      forall a, b | 0 <= a < b < i ensures before[a].id != before[b].id { assert after[a].id != after[b].id; }
    }
  }

  method IndexStates(states: seq<GlobalState>, diagnostics: seq<Code>)
    returns (index: map<string, GlobalState>, out: seq<Code>)
    ensures index == StateMap(states)
    ensures forall k :: k in out <==> k in diagnostics || (k == CLQ0004 && !UniqueStates(states))
  {
    index, out := map[], diagnostics;
    for i := 0 to |states|
      invariant index == StateMap(states[..i])
      invariant forall k :: k in out <==> k in diagnostics || (k == CLQ0004 && !UniqueStates(states[..i]))
    {
      UniqueStep(states, i);
      if states[i].id in index {
        out := out + [CLQ0004];
      }
      index := index[states[i].id := states[i]];
    }
    assert states[..|states|] == states;
  }

  method ValidateKinds(types: seq<TypeDefinition>, diagnostics: seq<Code>) returns (out: seq<Code>)
    ensures forall k :: k in out <==> k in diagnostics || (k == CLQ0003 && exists t :: t in types && !t.hasKind)
  {
    out := diagnostics;
    for i := 0 to |types|
      invariant forall k :: k in out <==> k in diagnostics || (k == CLQ0003 && exists t :: t in types[..i] && !t.hasKind)
    {
      assert types[..i + 1] == types[..i] + [types[i]];
      if !types[i].hasKind {
        assert types[i] in types[..i + 1];
        out := out + [CLQ0003];
      }
    }
    assert types[..|types|] == types;
  }

  // ----- Reachability search

  method Enumerate(s: set<string>) returns (q: seq<string>)
    ensures forall x :: x in q <==> x in s
  {
    q := [];
    var todo := s;
    while todo != {}
      invariant todo <= s
      invariant forall x :: x in q <==> x in s - todo
      decreases |todo|
    {
      var x :| x in todo;
      q, todo := q + [x], todo - {x};
    }
  }

  lemma StartIsReachable(m: map<string, GlobalState>, from: string)
    ensures Reachable(m, from, from)
  {
    assert PathTo(m, from, from, [from]);
  }

  /** Every edge leaving `sources` leads to a visited or a queued id. */
  ghost predicate Covered(m: map<string, GlobalState>, sources: set<string>, visited: set<string>, queue: seq<string>) {
    forall id, t :: id in sources && id in m && t in m[id].Successors() ==> t in visited || t in queue
  }

  lemma StartIsCovered(m: map<string, GlobalState>)
    ensures forall queue :: Covered(m, {}, {}, queue)
  {
  }

  lemma CoveredSkip(m: map<string, GlobalState>, visited: set<string>, id: string, rest: seq<string>)
    requires Covered(m, visited, visited, [id] + rest) && id in visited
    ensures Covered(m, visited, visited, rest)
  {
    forall v, t | v in visited && v in m && t in m[v].Successors() ensures t in visited || t in rest {
      assert t in visited || t in [id] + rest;
    }
  }

  lemma CoveredStep(m: map<string, GlobalState>, visited: set<string>, id: string, rest: seq<string>, more: seq<string>)
    requires id in m && Covered(m, visited, visited, [id] + rest)
    requires forall x :: x in more <==> x in m[id].Successors()
    ensures Covered(m, visited + {id}, visited + {id}, rest + more)
  {
    forall v, t | v in visited + {id} && v in m && t in m[v].Successors()
      ensures t in visited + {id} || t in rest + more
    {
      if v != id { assert t in visited || t in [id] + rest; }
    }
  }

  lemma SuccessorsIndexed(c: Conversation, id: string)
    requires Sound(c) && id in StateMap(c.states)
    ensures StateMap(c.states)[id].Successors() <= StateMap(c.states).Keys
  {
    assert IndexedOk(c, id);
  }

  lemma ExtendPaths(m: map<string, GlobalState>, from: string, id: string)
    requires id in m && Reachable(m, from, id)
    ensures forall t :: t in m[id].Successors() ==> Reachable(m, from, t)
  {
    var p :| PathTo(m, from, id, p);
    forall t | t in m[id].Successors() ensures Reachable(m, from, t) {
      assert PathTo(m, from, t, p + [t]);
    }
  }

  /** A set closed under edges that holds the start holds every reachable id. */
  lemma ClosedSetHoldsPaths(m: map<string, GlobalState>, from: string, closed: set<string>)
    requires from in closed && closed <= m.Keys && Covered(m, closed, closed, [])
    ensures forall id :: Reachable(m, from, id) ==> id in closed
  {
    forall id | Reachable(m, from, id) ensures id in closed {
      var p :| PathTo(m, from, id, p);
      for i := 0 to |p| - 1
        invariant p[i] in closed
      {
      }
    }
  }

  /**
   The worklist search. It runs only once the earlier checks passed, so every
   edge has a target. The set of unvisited ids shrinks, or else the queue does.
   */
  method Search(c: Conversation, index: map<string, GlobalState>)
    returns (reachable: set<string>, reachesTerminal: bool)
    requires Sound(c) && index == StateMap(c.states)
    ensures forall id :: id in reachable <==> Reachable(index, c.initial, id)
    ensures reachable <= index.Keys
    ensures reachesTerminal <==> exists id :: id in reachable && index[id].Terminal()
  {
    hide StateMap, Reachable, Covered;
    StartIsCovered(index);
    var queue := [c.initial];
    reachable, reachesTerminal := {}, false;
    StartIsReachable(index, c.initial);
    while queue != []
      invariant reachable <= index.Keys && forall q :: q in queue ==> q in index
      invariant forall id :: id in reachable || id in queue ==> Reachable(index, c.initial, id)
      invariant c.initial in reachable || c.initial in queue
      invariant Covered(index, reachable, reachable, queue)
      invariant reachesTerminal <==> exists id :: id in reachable && index[id].Terminal()
      decreases |index.Keys - reachable|, |queue|
    {
      var id, rest := queue[0], queue[1..];
      assert queue == [id] + rest;
      if id in reachable {
        CoveredSkip(index, reachable, id, rest);
        queue := rest;
      } else {
        assert index.Keys - (reachable + {id}) == (index.Keys - reachable) - {id};
        SuccessorsIndexed(c, id);
        ExtendPaths(index, c.initial, id);
        if index[id].Terminal() {
          reachesTerminal := true;
        }
        var more := Enumerate(index[id].Successors());
        CoveredStep(index, reachable, id, rest, more);
        reachable := reachable + {id};
        queue := rest + more;
      }
    }
    ClosedSetHoldsPaths(index, c.initial, reachable);
  }

  /** The ids of the listed states that no path from `from` reaches, in order. */
  ghost function Unreachable(m: map<string, GlobalState>, from: string, states: seq<GlobalState>): seq<string> {
    if |states| == 0 then []
    else
      var n := |states| - 1;
      Unreachable(m, from, states[..n]) + if Reachable(m, from, states[n].id) then [] else [states[n].id]
  }

  lemma {:induction false} UnreachableIds(m: map<string, GlobalState>, from: string, states: seq<GlobalState>)
    ensures forall id :: id in Unreachable(m, from, states) <==> exists s :: s in states && s.id == id && !Reachable(m, from, id)
  {
    hide Reachable;
    if |states| == 0 {
    } else {
      var n := |states| - 1;
      UnreachableIds(m, from, states[..n]);
      assert states == states[..n] + [states[n]];
    }
  }

  /** These diagnostics are the codes of the reachability search. */
  lemma LateCodes(c: Conversation, unreachable: seq<string>, diagnostics: seq<Code>)
    requires unreachable == Unreachable(StateMap(c.states), c.initial, c.states)
    requires diagnostics == seq(|unreachable|, _ => CLQ0017) + if ReachesTerminal(c) then [] else [CLQ0018]
    ensures forall k :: k in diagnostics <==> LateRaised(c, k)
  {
    hide Reachable, StateMap, Unreachable, ReachesTerminal;
    UnreachableIds(StateMap(c.states), c.initial, c.states);
    var n := |unreachable|;
    assert forall k :: k in diagnostics <==> (k == CLQ0017 && n > 0) || (k == CLQ0018 && !ReachesTerminal(c)) by {
      if n > 0 { assert diagnostics[0] == CLQ0017; }
      if !ReachesTerminal(c) { assert diagnostics[n] == CLQ0018; }
    }
    if n > 0 { assert unreachable[0] in unreachable; }
  }

  /** Some reached id is terminal exactly when some listed terminal state is reached. */
  lemma TerminalIsReached(c: Conversation, reachable: set<string>)
    requires Sound(c) && reachable <= StateMap(c.states).Keys
    requires forall id :: id in reachable <==> Reachable(StateMap(c.states), c.initial, id)
    ensures (exists id :: id in reachable && StateMap(c.states)[id].Terminal()) <==> ReachesTerminal(c)
  {
    hide Reachable;
    StateMapUnique(c.states);
    StateMapKeys(c.states);
  }

  /** One diagnostic for every unreachable state, and one if no terminal state is reached. */
  method ValidateReachability(c: Conversation, index: map<string, GlobalState>)
    returns (diagnostics: seq<Code>, unreachable: seq<string>)
    requires Sound(c) && index == StateMap(c.states)
    ensures unreachable == Unreachable(index, c.initial, c.states)
    ensures diagnostics == seq(|unreachable|, _ => CLQ0017) + if ReachesTerminal(c) then [] else [CLQ0018]
    ensures forall k :: k in diagnostics <==> LateRaised(c, k)
  {
    hide Reachable, StateMap, ReachesTerminal, LateRaised;
    var reachable, reachesTerminal := Search(c, index);
    diagnostics, unreachable := [], [];
    for i := 0 to |c.states|
      invariant unreachable == Unreachable(index, c.initial, c.states[..i])
      invariant diagnostics == seq(|unreachable|, _ => CLQ0017)
    {
      assert c.states[..i + 1][..i] == c.states[..i];
      if c.states[i].id !in reachable {
        diagnostics, unreachable := diagnostics + [CLQ0017], unreachable + [c.states[i].id];
      }
    }
    assert c.states[..|c.states|] == c.states;
    TerminalIsReached(c, reachable);
    if !reachesTerminal { diagnostics := diagnostics + [CLQ0018]; }
    LateCodes(c, unreachable, diagnostics);
  }

  /** The whole checker reports exactly the codes that are raised. */
  method Validate(c: Conversation) returns (diagnostics: seq<Code>)
    ensures forall k :: k in diagnostics <==> Raised(c, k)
    ensures forall k :: k in diagnostics <==> Acceptance.Reported(c, k)
    ensures diagnostics == [] <==> Valid(c)
  {
    diagnostics := [];
    if c.format != CONVERSATION_FORMAT { diagnostics := diagnostics + [CLQ0001]; }
    var roles, types, failures;
    roles, diagnostics := UniqueIds(c.roles, diagnostics);
    if |c.roles| != 2 { diagnostics := diagnostics + [CLQ0002]; }
    types, diagnostics := UniqueIds(TypeIds(c.types), diagnostics);
    diagnostics := ValidateKinds(c.types, diagnostics);
    failures, diagnostics := UniqueIds(c.failures, diagnostics);
    var index;
    index, diagnostics := IndexStates(c.states, diagnostics);
    if c.initial !in index { diagnostics := diagnostics + [CLQ0005]; }
    ghost var before := diagnostics;
    for i := 0 to |c.states|
      invariant forall k :: k in diagnostics <==>
                  k in before ||
                  exists s :: s in c.states[..i] && StateRaises(roles, types, failures, index, s, k)
    {
      assert c.states[..i + 1] == c.states[..i] + [c.states[i]];
      diagnostics := ValidateState(roles, types, failures, index, c.states[i], diagnostics);
    }
    assert c.states[..|c.states|] == c.states;
    assert forall k :: k in diagnostics <==> EarlyRaised(c, k);
    if diagnostics == [] {
      assert WellFormed(c);
      WellFormedIsSound(c);
      var unreachable;
      diagnostics, unreachable := ValidateReachability(c, index);
    } else {
      assert diagnostics[0] in diagnostics;
      assert EarlyRaised(c, diagnostics[0]);
      assert !WellFormed(c);
    }
    assert forall k :: k in diagnostics <==> Raised(c, k);
    forall k ensures Raised(c, k) <==> Acceptance.Reported(c, k) { Acceptance.RaisedExactly(c, k); }
    if diagnostics != [] {
      assert diagnostics[0] in diagnostics;
      assert Raised(c, diagnostics[0]);
    }
  }
}
